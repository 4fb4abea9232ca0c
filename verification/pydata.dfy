/**
 * The Python values the mapping engine works on: decoded JSON going in
 * (`Json`), extracted values coming out (`Value`), the exceptions that can be
 * raised, and the builtins the extractors rely on: `x.get(key)`, `key in x`,
 * `x[key]`, `for i in x`, `int(x)` and `str(x)`.
 */
module PyData {
  import opened Wrappers
  import Numerals

  /**
   * A value as `json.loads` produces it. An object is a `dict`, which keeps its keys in
   * insertion order; `json.loads` keeps only the last value of a repeated key, so the
   * members of an object decoded from text have distinct keys.
   */
  datatype Json =
    | Null
    | Bool(b: bool)
    | Int(i: int)
    | Str(s: string)
    | Array(items: seq<Json>)
    | Object(members: seq<Member>)

  datatype Member = Member(key: string, value: Json)

  /**
   * A `ResponseModel` dataclass, identified by its name and the parameters of
   * its generated `__init__`. The base class `ResponseModel` takes none.
   */
  datatype ModelClass = ResponseModel | Model(name: string, params: seq<string>)
  {
    function Name(): string
    {
      if ResponseModel? then "ResponseModel" else name
    }

    function InitParams(): seq<string>
    {
      if ResponseModel? then [] else params
    }
  }

  /** What an extractor hands back. Python's `None` is `Raw(Null)`. */
  datatype Value =
    | Raw(json: Json)
    | DateTime(instant: int)
    | List(items: seq<Value>)
    | Record(model: ModelClass, fields: map<string, Value>)

  const NoneValue: Value := Raw(Null)

  /** The subclasses of `Exception` the core raises or meets. */
  datatype ExceptionClass =
    | TypeError
    | ValueError
    | KeyError
    | AttributeError
    | OverflowError
    | MissingDefinition(model: string)  // the `ValueError` naming a class without a mapping definition

  /**
   * A raised exception. `ParseAPIResponseError` and `IncorrectRequestError` derive from
   * `MercapiError`, a `BaseException`: an `except Exception` clause does not catch them.
   */
  datatype Raised =
    | Exception(cls: ExceptionClass)
    | ParseAPIResponseError(model: string, property: string)
    | IncorrectRequestError

  type Outcome<T> = Result<T, Raised>

  /** The position of the first member named `key`. */
  function Find(ms: seq<Member>, key: string): (r: Option<nat>)
    ensures r.Some? ==> r.value < |ms| && ms[r.value].key == key
    ensures r.Some? ==> forall j :: 0 <= j < r.value ==> ms[j].key != key
    ensures r.None? ==> forall j :: 0 <= j < |ms| ==> ms[j].key != key
  {
    if ms == [] then None
    else if ms[0].key == key then Some(0)
    else match Find(ms[1..], key)
      case None => None
      case Some(k) => Some(k + 1)
  }

  predicate HasKey(x: Json, key: string)
  {
    x.Object? && Find(x.members, key).Some?
  }

  /** The value stored under `key` in a dict that has it; it is nested less deeply than the dict. */
  function Lookup(x: Json, key: string): (v: Json)
    requires HasKey(x, key)
    ensures Depth(v) < Depth(x)
  {
    var ms := x.members;
    var k := Find(ms, key).value;
    var ds := seq(|ms|, i requires 0 <= i < |ms| => Depth(ms[i].value));
    assert ds[k] == Depth(ms[k].value);
    ms[k].value
  }

  /** `x.get(key)`: a dict gives the stored value or `None`; nothing else has a `get` method. */
  function DictGet(x: Json, key: string): (r: Outcome<Json>)
    ensures r.Ok? <==> x.Object?
    ensures r.Ok? ==> r.value == if HasKey(x, key) then Lookup(x, key) else Null
    ensures r.Err? ==> r.error == Exception(AttributeError)
  {
    match x
    case Object(ms) =>
      (match Find(ms, key)
       case Some(k) => Ok(ms[k].value)
       case None => Ok(Null))
    case _ => Err(Exception(AttributeError))
  }

  /** Whether `key` occurs in `s` as a contiguous substring (`key in s` on a str). */
  function IsSubstring(key: string, s: string): bool
  {
    key <= s || (|s| > 0 && IsSubstring(key, s[1..]))
  }

  /**
   * `key in x`: a dict tests its keys, a list compares its elements with the
   * string, a str looks for a substring; `None`, a bool or an int is not a container.
   */
  function Contains(x: Json, key: string): (r: Outcome<bool>)
    ensures x.Object? ==> r == Ok(HasKey(x, key))
    ensures r.Err? <==> !(x.Object? || x.Array? || x.Str?)
    ensures r.Err? ==> r.error == Exception(TypeError)
  {
    match x
    case Object(ms) => Ok(Find(ms, key).Some?)
    case Array(items) => Ok(Str(key) in items)
    case Str(s) => Ok(IsSubstring(key, s))
    case _ => Err(Exception(TypeError))
  }

  /** `x[key]` with a str key: a dict gives the stored value, anything else cannot be indexed by a str. */
  function Subscript(x: Json, key: string): (r: Outcome<Json>)
    ensures r.Ok? <==> HasKey(x, key)
    ensures r.Ok? ==> r.value == Lookup(x, key)
  {
    match x
    case Object(ms) =>
      (match Find(ms, key)
       case Some(k) => Ok(ms[k].value)
       case None => Err(Exception(KeyError)))
    case _ => Err(Exception(TypeError))
  }

  /** What `for i in x` visits: a list's items, a str's one-character strings, a dict's keys. */
  function Iterate(x: Json): (r: Outcome<seq<Json>>)
    ensures r.Ok? <==> (x.Array? || x.Str? || x.Object?)
    ensures x.Array? ==> r == Ok(x.items)
    ensures x.Str? ==> r.Ok? && |r.value| == |x.s|
    ensures x.Object? ==> r.Ok? && |r.value| == |x.members|
    ensures r.Ok? ==> forall i :: 0 <= i < |r.value| ==> Depth(r.value[i]) <= Depth(x)
  {
    match x
    case Array(items) => ItemsDepthBounds(items); Ok(items)
    case Str(s) => Ok(seq(|s|, i requires 0 <= i < |s| => Str([s[i]])))
    case Object(ms) => Ok(seq(|ms|, i requires 0 <= i < |ms| => Str(ms[i].key)))
    case _ => Err(Exception(TypeError))
  }

  /** `int(x)`: ints and bools convert, a str is parsed as a decimal literal, anything else is a `TypeError`. */
  function ToInt(x: Json): (r: Outcome<int>)
    ensures r.Err? ==> r.error == Exception(TypeError) || r.error == Exception(ValueError)
    ensures r.Err? && r.error == Exception(TypeError) <==> x.Null? || x.Array? || x.Object?
  {
    match x
    case Int(i) => Ok(i)
    case Bool(b) => Ok(if b then 1 else 0)
    case Str(s) =>
      (match Numerals.ParseInt(s, 10)
       case Some(i) => Ok(i)
       case None => Err(Exception(ValueError)))
    case _ => Err(Exception(TypeError))
  }

  /** `str(x)`: a str is itself; anything else prints as its `repr`. */
  function ToStr(x: Json): string
  {
    match x
    case Str(s) => s
    case _ => Repr(x)
  }

  /** `repr(x)` for a decoded JSON value. */
  function Repr(x: Json): string
  {
    match x
    case Null => "None"
    case Bool(b) => if b then "True" else "False"
    case Int(i) => Numerals.DecimalString(i)
    case Str(s) => QuoteString(s)
    case Array(items) =>
      "[" + Join(seq(|items|, i requires 0 <= i < |items| => Repr(items[i]))) + "]"
    case Object(ms) =>
      "{" + Join(seq(|ms|, i requires 0 <= i < |ms| => QuoteString(ms[i].key) + ": " + Repr(ms[i].value))) + "}"
  }

  /** The parts separated by `", "`. */
  function Join(parts: seq<string>): string
  {
    if parts == [] then ""
    else if |parts| == 1 then parts[0]
    else parts[0] + ", " + Join(parts[1..])
  }

  /** A str literal as `repr` writes it: single quotes unless the text holds a `'` and no `"`. */
  function QuoteString(s: string): string
  {
    var q := if '\'' in s && '"' !in s then '"' else '\'';
    [q] + Escape(s, q) + [q]
  }

  function Escape(s: string, q: char): string
  {
    if s == [] then "" else EscapeChar(s[0], q) + Escape(s[1..], q)
  }

  function EscapeChar(c: char, q: char): string
  {
    if c == '\\' then "\\\\"
    else if c == q then ['\\', q]
    else if c == '\n' then "\\n"
    else if c == '\r' then "\\r"
    else if c == '\t' then "\\t"
    else if c < ' ' || c as int == 127 then
      "\\x" + [Numerals.DigitChar(c as int / 16), Numerals.DigitChar(c as int % 16)]
    else [c]
  }

  /** `int(str(i)) == i`: the decimal text of an int converts back to it. */
  lemma IntOfStr(i: int)
    ensures ToInt(Str(ToStr(Int(i)))) == Ok(i)
  {
    Numerals.ParseDecimalString(i);
  }

  /** The largest element, `0` for none. */
  function MaxOf(s: seq<nat>): (m: nat)
    ensures forall i :: 0 <= i < |s| ==> s[i] <= m
    ensures m == 0 || exists i :: 0 <= i < |s| && s[i] == m
  {
    if s == [] then 0
    else
      var rest := MaxOf(s[1..]);
      if s[0] >= rest then s[0] else rest
  }

  /** The nesting depth of containers: the measure that the recursion of the mapping engine decreases. */
  function Depth(x: Json): nat
  {
    match x
    case Array(items) => 1 + MaxOf(seq(|items|, i requires 0 <= i < |items| => Depth(items[i])))
    case Object(ms) => 1 + MaxOf(seq(|ms|, i requires 0 <= i < |ms| => Depth(ms[i].value)))
    case _ => 0
  }

  /** The deepest element of a sequence of values. */
  function ItemsDepth(items: seq<Json>): nat
  {
    MaxOf(seq(|items|, i requires 0 <= i < |items| => Depth(items[i])))
  }

  lemma ItemsDepthBounds(items: seq<Json>)
    ensures forall i :: 0 <= i < |items| ==> Depth(items[i]) <= ItemsDepth(items)
    ensures |items| > 0 ==> ItemsDepth(items[1..]) <= ItemsDepth(items)
  {
    var ds := seq(|items|, i requires 0 <= i < |items| => Depth(items[i]));
    assert forall i :: 0 <= i < |items| ==> ds[i] == Depth(items[i]);
    if |items| > 0 {
      var m := ItemsDepth(items[1..]);
      if m != 0 {
        var i :| 0 <= i < |items| - 1 && Depth(items[1..][i]) == m;
        assert ds[i + 1] == m;
      }
    }
  }
}
