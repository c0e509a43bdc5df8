/** Python values as the tool handlers see them, and the few Python operations
    they apply to them: subscripting a dict, truthiness, `==`, ordering against
    an int constant, `in`, iteration, slicing and numeric format codes.
    Every operation that can raise in Python returns a `Result` whose `Err`
    carries the exception, so that a handler built from them fails exactly
    where the Python handler would. */
module PyValues {

  datatype Option<+T> = None | Some(value: T)

  /** A JSON-compatible Python value. Dicts keep insertion order, as Python's do. */
  datatype Value =
    | Null
    | Bool(b: bool)
    | Int(i: int)
    | Float(r: real)
    | Str(s: string)
    | List(items: seq<Value>)
    | Dict(entries: seq<(string, Value)>)

  /** The exceptions the modelled code can raise. Only the class and, for a
      missing key or name, that key or name are kept; the message text is not. */
  datatype Exc =
    | KeyError(key: string)     // d[k] for an absent key k
    | TypeError                 // subscript of a non-dict, unhashable key, comparison of unordered types, ...
    | ValueError                // a format code the value's type does not accept, a malformed date
    | AttributeError            // .get / .items on something that is not a dict
    | NameError(name: string)   // a name that the imported module does not define

  /** A computation that either produced a value or raised. */
  datatype Result<+T> = Ok(value: T) | Err(error: Exc) {
    predicate IsFailure() { Err? }
    function PropagateFailure<U>(): Result<U>
      requires Err?
    {
      Err(error)
    }
    function Extract(): T
      requires Ok?
    {
      value
    }
  }

  /** First binding of `key` among the entries of a dict. */
  function Lookup(entries: seq<(string, Value)>, key: string): (r: Option<Value>)
    ensures r.Some? <==> exists i :: 0 <= i < |entries| && entries[i].0 == key
    ensures r.Some? ==> exists i :: 0 <= i < |entries| && entries[i] == (key, r.value)
  {
    if entries == [] then None
    else if entries[0].0 == key then Some(entries[0].1)
    else
      var r := Lookup(entries[1..], key);
      assert forall i :: 0 < i < |entries| ==> entries[i] == entries[1..][i - 1];
      r
  }

  /** The entry at `i` is the first with its key, so lookup finds it. */
  lemma {:induction false} LookupAt(entries: seq<(string, Value)>, key: string, i: nat)
    requires i < |entries| && entries[i].0 == key
    requires forall j :: 0 <= j < i ==> entries[j].0 != key
    ensures Lookup(entries, key) == Some(entries[i].1)
  {
    if i > 0 {
      assert entries[0].0 != key;
      LookupAt(entries[1..], key, i - 1);
    }
  }

  /** `v[key]` for a string key. */
  function Sub(v: Value, key: string): (r: Result<Value>)
    ensures r.Ok? <==> v.Dict? && Lookup(v.entries, key).Some?
    ensures r.Err? ==> r.error == (if v.Dict? then KeyError(key) else TypeError)
  {
    match v
    case Dict(entries) =>
      (match Lookup(entries, key)
       case Some(x) => Ok(x)
       case None => Err(KeyError(key)))
    case _ => Err(TypeError)
  }

  /** Whether `v` is a dict holding `key`: exactly when `v[key]` does not raise. */
  predicate HasKey(v: Value, key: string) {
    Sub(v, key).Ok?
  }

  /** Lists and dicts cannot be dict keys. */
  predicate Hashable(v: Value) {
    !v.List? && !v.Dict?
  }

  /** `d.get(key, default)` where `d` should be a dict with string keys. */
  function DictGet(d: Value, key: Value, default: Value): (r: Result<Value>)
    ensures r.Err? <==> !d.Dict? || !Hashable(key)
    ensures d.Dict? && key.Str? && Lookup(d.entries, key.s).Some? ==> r == Ok(Lookup(d.entries, key.s).value)
    ensures d.Dict? && Hashable(key) && !(key.Str? && Lookup(d.entries, key.s).Some?) ==> r == Ok(default)
  {
    if !d.Dict? then Err(AttributeError)
    else if !Hashable(key) then Err(TypeError)
    else if key.Str? then
      (match Lookup(d.entries, key.s)
       case Some(x) => Ok(x)
       case None => Ok(default))
    else Ok(default)
  }

  /** Python truthiness: `None`, `False`, zero and empty containers are false. */
  predicate Truthy(v: Value) {
    match v
    case Null => false
    case Bool(b) => b
    case Int(i) => i != 0
    case Float(r) => r != 0.0
    case Str(s) => s != ""
    case List(items) => items != []
    case Dict(entries) => entries != []
  }

  /** The numeric value of a bool, int or float (bool is an int subclass in Python). */
  function NumberOf(v: Value): Option<real> {
    match v
    case Bool(b) => Some(if b then 1.0 else 0.0)
    case Int(i) => Some(i as real)
    case Float(r) => Some(r)
    case _ => None
  }

  /** Every int is a number. */
  lemma IntIsNumber(v: Value)
    requires v.Int?
    ensures NumberOf(v) == Some(v.i as real)
  {
  }

  /** Every float is a number. */
  lemma FloatIsNumber(v: Value)
    requires v.Float?
    ensures NumberOf(v) == Some(v.r)
  {
  }

  /** Python `==`: numbers compare by value across bool, int and float;
      everything else compares structurally. */
  predicate PyEq(a: Value, b: Value) {
    if NumberOf(a).Some? && NumberOf(b).Some? then NumberOf(a).value == NumberOf(b).value
    else a == b
  }

  /** `v > n`. */
  function Above(v: Value, n: int): (r: Result<bool>)
    ensures r.Ok? <==> NumberOf(v).Some?
    ensures r.Ok? ==> (r.value <==> NumberOf(v).value > n as real)
  {
    match NumberOf(v)
    case Some(x) => Ok(x > n as real)
    case None => Err(TypeError)
  }

  /** Formatting `v` with a numeric format code (`:.0f`, `:.1f`, `:,`):
      numbers pass unchanged, a string raises ValueError, anything else TypeError. */
  function Numeric(v: Value): (r: Result<Value>)
    ensures r.Ok? <==> NumberOf(v).Some?
    ensures r.Ok? ==> r.value == v
    ensures r.Err? ==> r.error == (if v.Str? then ValueError else TypeError)
  {
    if NumberOf(v).Some? then Ok(v)
    else if v.Str? then Err(ValueError)
    else Err(TypeError)
  }

  /** `v[key]` followed by a numeric format code. */
  function NumericSub(v: Value, key: string): Result<Value> {
    var x :- Sub(v, key);
    Numeric(x)
  }

  /** Whether `sub` occurs in `s` as a contiguous piece. */
  predicate IsSubstring(sub: string, s: string)
    decreases |s|
  {
    |sub| <= |s| && (s[..|sub|] == sub || IsSubstring(sub, s[1..]))
  }

  /** `needle in container` for a string needle. */
  function Contains(container: Value, needle: string): (r: Result<bool>)
    ensures r.Ok? <==> container.Str? || container.List? || container.Dict?
  {
    match container
    case Str(s) => Ok(IsSubstring(needle, s))
    case List(items) => Ok(exists i :: 0 <= i < |items| && PyEq(items[i], Str(needle)))
    case Dict(entries) => Ok(Lookup(entries, needle).Some?)
    case _ => Err(TypeError)
  }

  /** The elements `for x in v` visits: list items, dict keys, or the
      one-character strings of a string. */
  function Iterate(v: Value): (r: Result<seq<Value>>)
    ensures r.Ok? <==> v.List? || v.Dict? || v.Str?
    ensures v.List? ==> r == Ok(v.items)
    ensures r.Ok? ==> (|r.value| == 0 <==> !Truthy(v))
  {
    match v
    case List(items) => Ok(items)
    case Dict(entries) => Ok(seq(|entries|, i requires 0 <= i < |entries| => Str(entries[i].0)))
    case Str(s) => Ok(seq(|s|, i requires 0 <= i < |s| => Str([s[i]])))
    case _ => Err(TypeError)
  }

  /** `d.items()`. */
  function Items(d: Value): (r: Result<seq<(string, Value)>>)
    ensures r.Ok? <==> d.Dict?
    ensures r.Ok? ==> r.value == d.entries
  {
    if d.Dict? then Ok(d.entries) else Err(AttributeError)
  }

  /** The first `n` elements of `s` (all of them when `s` is shorter): `s[:n]`. */
  function Take<T>(s: seq<T>, n: nat): (r: seq<T>)
    ensures |r| == if |s| < n then |s| else n
    ensures r <= s
  {
    if |s| <= n then s else s[..n]
  }

  /** `v[:n]` on a list or string. */
  function SliceFront(v: Value, n: nat): (r: Result<Value>)
    ensures r.Ok? <==> v.List? || v.Str?
    ensures v.List? ==> r == Ok(List(Take(v.items, n)))
  {
    match v
    case List(items) => Ok(List(Take(items, n)))
    case Str(s) => Ok(Str(Take(s, n)))
    case _ => Err(TypeError)
  }

  /** `"、".join(v)`: `v` must be iterable and yield strings only. */
  function JoinableStrings(v: Value): (r: Result<seq<string>>)
  {
    var parts :- Iterate(v);
    if forall i :: 0 <= i < |parts| ==> parts[i].Str?
    then Ok(seq(|parts|, i requires 0 <= i < |parts| => parts[i].s))
    else Err(TypeError)
  }

  // ---------------------------------------------------------------------------
  // List comprehensions. Python evaluates them left to right, so the first
  // element whose test or expression raises decides the exception.
  // ---------------------------------------------------------------------------

  /** `[f(x) for x in items]`. */
  function MapAll<A, T>(items: seq<A>, f: A -> Result<T>): (r: Result<seq<T>>)
    ensures r.Ok? ==> |r.value| == |items|
  {
    if items == [] then Ok([])
    else
      var init :- MapAll(items[..|items| - 1], f);
      var last :- f(items[|items| - 1]);
      Ok(init + [last])
  }

  /** Once a prefix of the elements raises, the whole comprehension raises the same. */
  lemma {:induction false} MapAllExtendErr<A, T>(items: seq<A>, f: A -> Result<T>, j: nat)
    requires j <= |items| && MapAll(items[..j], f).Err?
    ensures MapAll(items, f) == MapAll(items[..j], f)
    decreases |items| - j
  {
    if j < |items| {
      assert items[..j + 1][..j] == items[..j];
      MapAllExtendErr(items, f, j + 1);
    } else {
      assert items[..j] == items;
    }
  }

  /** The fields `rec[k]` for each key in turn, as an f-string reads them. */
  function Cells(rec: Value, keys: seq<string>): Result<seq<Value>> {
    MapAll(keys, (k: string) => Sub(rec, k))
  }

  /** `[x for x in items if keep(x)]`. */
  function FilterBy(items: seq<Value>, keep: Value -> Result<bool>): (r: Result<seq<Value>>)
  {
    if items == [] then Ok([])
    else
      var init :- FilterBy(items[..|items| - 1], keep);
      var k :- keep(items[|items| - 1]);
      Ok(if k then init + [items[|items| - 1]] else init)
  }

  /** The elements of `items` that `keep` accepts without raising, in order:
      the reference meaning of a filter that raises nowhere. */
  function Select(items: seq<Value>, keep: Value -> Result<bool>): seq<Value> {
    if items == [] then []
    else
      var init := Select(items[..|items| - 1], keep);
      if keep(items[|items| - 1]) == Ok(true) then init + [items[|items| - 1]] else init
  }

  /** No element of `items` makes `f` raise. */
  predicate AllOk<A, T>(items: seq<A>, f: A -> Result<T>) {
    forall i :: 0 <= i < |items| ==> f(items[i]).Ok?
  }

  /** `f` raises on `items[k]` and on nothing before it. */
  predicate FirstFailure<A, T>(items: seq<A>, f: A -> Result<T>, k: int) {
    0 <= k < |items| && f(items[k]).Err? && forall j :: 0 <= j < k ==> f(items[j]).Ok?
  }

  lemma {:induction false} AllOkPrefix<A, T>(items: seq<A>, f: A -> Result<T>)
    requires items != [] && AllOk(items, f)
    ensures AllOk(items[..|items| - 1], f)
  {
    var init := items[..|items| - 1];
    forall i | 0 <= i < |init| ensures f(init[i]).Ok? {
      assert init[i] == items[i];
    }
  }

  /** A comprehension that raises nowhere yields `f` of every element, in order. */
  lemma {:induction false} MapAllOk<A, T>(items: seq<A>, f: A -> Result<T>)
    requires AllOk(items, f)
    ensures MapAll(items, f).Ok?
    ensures forall i :: 0 <= i < |items| ==> MapAll(items, f).value[i] == f(items[i]).value
  {
    if items != [] {
      var init := items[..|items| - 1];
      AllOkPrefix(items, f);
      MapAllOk(init, f);
      assert forall i :: 0 <= i < |init| ==> init[i] == items[i];
    }
  }

  /** A comprehension raises exactly when some element raises, and then it
      raises what the first such element raises. */
  lemma {:induction false} MapAllErr<A, T>(items: seq<A>, f: A -> Result<T>)
    ensures MapAll(items, f).Err? <==> !AllOk(items, f)
    ensures MapAll(items, f).Err? ==>
      exists k :: FirstFailure(items, f, k) && MapAll(items, f).error == f(items[k]).error
  {
    if items == [] {
    } else {
      var n := |items| - 1;
      var init := items[..n];
      MapAllErr(init, f);
      assert forall i :: 0 <= i < n ==> init[i] == items[i];
      if MapAll(init, f).Err? {
        var k :| FirstFailure(init, f, k) && MapAll(init, f).error == f(init[k]).error;
        assert FirstFailure(items, f, k);
      } else if f(items[n]).Err? {
        assert FirstFailure(items, f, n);
      } else {
        assert AllOk(items, f);
      }
    }
  }

  /** A comprehension raises what its first raising element raises. */
  lemma MapAllFirstError<A, T>(items: seq<A>, f: A -> Result<T>, k: nat)
    requires FirstFailure(items, f, k)
    ensures MapAll(items, f) == Err(f(items[k]).error)
  {
    MapAllErr(items, f);
    var k' :| FirstFailure(items, f, k') && MapAll(items, f).error == f(items[k']).error;
    assert k' == k;
  }

  /** Reading fields in turn raises KeyError at the first one the record lacks. */
  lemma CellsMissing(rec: Value, keys: seq<string>, k: nat)
    requires rec.Dict? && k < |keys| && !HasKey(rec, keys[k])
    requires forall j :: 0 <= j < k ==> HasKey(rec, keys[j])
    ensures Cells(rec, keys) == Err(KeyError(keys[k]))
  {
    MapAllFirstError(keys, (key: string) => Sub(rec, key), k);
  }

  /** A filter whose test raises nowhere keeps exactly `Select`. */
  lemma {:induction false} FilterByOk(items: seq<Value>, keep: Value -> Result<bool>)
    requires AllOk(items, keep)
    ensures FilterBy(items, keep) == Ok(Select(items, keep))
  {
    if items != [] {
      AllOkPrefix(items, keep);
      FilterByOk(items[..|items| - 1], keep);
    }
  }

  /** A filter raises exactly when its test raises on some element, and then
      it raises what the test raises on the first such element. */
  lemma {:induction false} FilterByErr(items: seq<Value>, keep: Value -> Result<bool>)
    ensures FilterBy(items, keep).Err? <==> !AllOk(items, keep)
    ensures FilterBy(items, keep).Err? ==>
      exists k :: FirstFailure(items, keep, k) && FilterBy(items, keep).error == keep(items[k]).error
  {
    if items == [] {
    } else {
      var n := |items| - 1;
      var init := items[..n];
      FilterByErr(init, keep);
      assert forall i :: 0 <= i < n ==> init[i] == items[i];
      if FilterBy(init, keep).Err? {
        var k :| FirstFailure(init, keep, k) && FilterBy(init, keep).error == keep(init[k]).error;
        assert FirstFailure(items, keep, k);
      } else if keep(items[n]).Err? {
        assert FirstFailure(items, keep, n);
      } else {
        assert AllOk(items, keep);
      }
    }
  }

  /** A filter that did not raise evaluated its test on every element without raising and
      kept the `Select`ion. */
  lemma FilterByNoRaise(items: seq<Value>, keep: Value -> Result<bool>)
    requires FilterBy(items, keep).Ok?
    ensures AllOk(items, keep)
    ensures FilterBy(items, keep).value == Select(items, keep)
  {
    FilterByErr(items, keep);
    FilterByOk(items, keep);
  }

  /** A comprehension that did not raise applied `f` to every element without raising. */
  lemma MapAllNoRaise<A, T>(items: seq<A>, f: A -> Result<T>)
    requires MapAll(items, f).Ok?
    ensures AllOk(items, f)
    ensures forall i :: 0 <= i < |items| ==> MapAll(items, f).value[i] == f(items[i]).value
  {
    MapAllErr(items, f);
    MapAllOk(items, f);
  }

  /** The row a comprehension that did not raise holds at one index. */
  lemma MapAllAt<A, T>(items: seq<A>, f: A -> Result<T>, i: nat)
    requires MapAll(items, f).Ok? && i < |items|
    ensures f(items[i]).Ok? && MapAll(items, f).value[i] == f(items[i]).value
  {
    MapAllNoRaise(items, f);
  }

  /** `Select` keeps an element iff it is in the input and accepted. */
  lemma {:induction false} SelectMembers(items: seq<Value>, keep: Value -> Result<bool>)
    ensures forall x :: x in Select(items, keep) <==> x in items && keep(x) == Ok(true)
    ensures |Select(items, keep)| <= |items|
  {
    if items != [] {
      var init := items[..|items| - 1];
      SelectMembers(init, keep);
      assert items == init + [items[|items| - 1]];
    }
  }

  /** `Select` keeps everything when the test accepts every element. */
  lemma {:induction false} SelectAll(items: seq<Value>, keep: Value -> Result<bool>)
    requires forall i :: 0 <= i < |items| ==> keep(items[i]) == Ok(true)
    ensures Select(items, keep) == items
  {
    if items != [] {
      var init := items[..|items| - 1];
      assert forall i :: 0 <= i < |init| ==> init[i] == items[i];
      SelectAll(init, keep);
    }
  }

  /** `Select` preserves order: it distributes over concatenation. */
  lemma {:induction false} SelectAppend(a: seq<Value>, b: seq<Value>, keep: Value -> Result<bool>)
    ensures Select(a + b, keep) == Select(a, keep) + Select(b, keep)
    decreases |b|
  {
    if b == [] {
      assert a + b == a;
    } else {
      var b' := b[..|b| - 1];
      SelectAppend(a, b', keep);
      assert (a + b)[..|a + b| - 1] == a + b';
    }
  }

  /** A test and its negation split a list: the two selections together have
      as many elements as the list. */
  lemma {:induction false} SelectSplit(items: seq<Value>, keep: Value -> Result<bool>, drop: Value -> Result<bool>)
    requires forall i :: 0 <= i < |items| ==>
      keep(items[i]).Ok? && drop(items[i]).Ok? && keep(items[i]).value != drop(items[i]).value
    ensures |Select(items, keep)| + |Select(items, drop)| == |items|
  {
    if items != [] {
      var init := items[..|items| - 1];
      assert forall i :: 0 <= i < |init| ==> init[i] == items[i];
      SelectSplit(init, keep, drop);
    }
  }
}
