/**
 * The extractor combinators shared by `mercapi/mapping/definitions.py` and
 * `mercapi/models/base.py`. Each one reads a key of a response object and
 * gives a value, `None` when the key is absent, or raises.
 */
module Combinators {
  import opened Wrappers
  import opened PyData

  /** The `type_` passed to `get_as`: `int` or `str`. */
  datatype Cast = IntCast | StrCast

  /** `type_(v)`: `int(v)` or `str(v)`; only an ordinary `Exception` can come out of it. */
  function CastTo(c: Cast, v: Json): (r: Outcome<Value>)
    ensures r.Err? ==> c == IntCast && r.error.Exception?
    ensures c == IntCast && v.Int? ==> r == Ok(Raw(v))
    ensures c == StrCast ==> r.Ok? && r.value.Raw? && r.value.json.Str?
  {
    match c
    case IntCast =>
      (match ToInt(v)
       case Ok(i) => Ok(Raw(Int(i)))
       case Err(e) => Err(e))
    case StrCast => Ok(Raw(Str(ToStr(v))))
  }

  /** The mapper functions the definitions pass to `get_with` and `get_list_with`. */
  datatype Mapper =
    | Timestamp                 // `lambda x: datetime.fromtimestamp(float(x))`
    | FromDict(model: ModelClass)  // `lambda x: model.from_dict(x)`

  /**
   * Code outside the model: the conversion of a timestamp to a `datetime` (which
   * raises an ordinary `Exception` when it fails), and the `from_dict` classmethod,
   * which none of the model classes shown defines.
   */
  datatype Hooks = Hooks(
    timestamp: Json -> Result<int, ExceptionClass>,
    fromDict: (ModelClass, Json) -> Outcome<Value>)

  /** A mapper as the Python callable it stands for. */
  function Apply(m: Mapper, hooks: Hooks): Json -> Outcome<Value>
  {
    match m
    case Timestamp =>
      v =>
        (match hooks.timestamp(v)
         case Ok(t) => Ok(DateTime(t))
         case Err(c) => Err(Exception(c)))
    case FromDict(model) => v => hooks.fromDict(model, v)
  }

  /** A converted timestamp is a `datetime`, never `None`, and a failed one raises an ordinary `Exception`. */
  lemma TimestampNeverNone(hooks: Hooks, v: Json)
    ensures var r := Apply(Timestamp, hooks)(v);
      (r.Ok? ==> r.value.DateTime?) && (r.Err? ==> r.error.Exception?)
  {
  }

  /**
   * The guard shared by every combinator except `get`: `x[key] if key in x else None`.
   * `Ok(None)` is the absent key, `Ok(Some(v))` the value to hand on.
   */
  function Guarded(x: Json, key: string): (r: Outcome<Option<Json>>)
    ensures x.Object? ==> r == Ok(if HasKey(x, key) then Some(Lookup(x, key)) else None)
    ensures r.Ok? && r.value.Some? ==> HasKey(x, key) && r.value.value == Lookup(x, key)
    ensures r.Err? ==> r.error == Exception(TypeError)
    ensures x.Null? || x.Bool? || x.Int? ==> r.Err?
  {
    match Contains(x, key)
    case Err(e) => Err(e)
    case Ok(false) => Ok(None)
    case Ok(true) =>
      (match Subscript(x, key)
       case Err(e) => Err(e)
       case Ok(v) => Ok(Some(v)))
  }

  /**
   * `get(key)`, that is `x.get(key)`: never raises on a dict, and gives `None` both
   * for an absent key and for a key stored with a null value.
   */
  function Get(x: Json, key: string): (r: Outcome<Value>)
    ensures x.Object? ==> r.Ok? && r.value.Raw?
    ensures x.Object? ==> (r.value == NoneValue <==> !HasKey(x, key) || Lookup(x, key) == Null)
    ensures HasKey(x, key) ==> r == Ok(Raw(Lookup(x, key)))
    ensures !x.Object? ==> r == Err(Exception(AttributeError))
  {
    match DictGet(x, key)
    case Ok(v) => Ok(Raw(v))
    case Err(e) => Err(e)
  }

  /**
   * `get_as(key, type_)`: `None` for an absent key, otherwise the converted value;
   * a failed conversion (`int(None)`, `int("abc")`) raises.
   */
  function GetAs(x: Json, key: string, c: Cast): (r: Outcome<Value>)
    ensures x.Object? ==> r == if HasKey(x, key) then CastTo(c, Lookup(x, key)) else Ok(NoneValue)
    ensures r.Err? ==> r.error.Exception?
    ensures c == IntCast && HasKey(x, key) && Lookup(x, key) == Null ==> r == Err(Exception(TypeError))
  {
    match Guarded(x, key)
    case Err(e) => Err(e)
    case Ok(None) => Ok(NoneValue)
    case Ok(Some(v)) => CastTo(c, v)
  }

  /** `get_with(key, mapper)`: `None` for an absent key, otherwise one call of `mapper` on the value. */
  function GetWith(x: Json, key: string, f: Json --> Outcome<Value>): (r: Outcome<Value>)
    requires forall v :: Depth(v) < Depth(x) ==> f.requires(v)
    ensures HasKey(x, key) ==> r == f(Lookup(x, key))
    ensures x.Object? && !HasKey(x, key) ==> r == Ok(NoneValue)
    ensures !HasKey(x, key) ==> r == Ok(NoneValue) || r == Err(Exception(TypeError))
    ensures (forall v :: Depth(v) < Depth(x) && f(v).Err? ==> f(v).error.Exception?) ==> (r.Err? ==> r.error.Exception?)
  {
    match Guarded(x, key)
    case Err(e) => Err(e)
    case Ok(None) => Ok(NoneValue)
    case Ok(Some(v)) => f(v)
  }

  /**
   * `[mapper(i) for i in items]`: the mapper is called on each element in order and
   * the first exception ends the comprehension.
   */
  function MapList(items: seq<Json>, f: Json --> Outcome<Value>): (r: Outcome<seq<Value>>)
    requires forall i :: 0 <= i < |items| ==> f.requires(items[i])
    ensures r.Ok? <==> forall i :: 0 <= i < |items| ==> f(items[i]).Ok?
    ensures r.Ok? ==> |r.value| == |items|
    ensures r.Ok? ==> forall i :: 0 <= i < |items| ==> r.value[i] == f(items[i]).value
    ensures r.Err? ==>
      exists k :: 0 <= k < |items| && f(items[k]) == Err(r.error) && (forall i :: 0 <= i < k ==> f(items[i]).Ok?)
  {
    if items == [] then Ok([])
    else
      match f(items[0])
      case Err(e) => Err(e)
      case Ok(v) =>
        match MapList(items[1..], f)
        case Err(e) =>
          assert forall i :: 1 <= i < |items| ==> f(items[i]) == f(items[1..][i - 1]);
          Err(e)
        case Ok(vs) => Ok([v] + vs)
  }

  /**
   * `get_list_with(key, mapper)`: `None` for an absent key, otherwise the list of
   * `mapper` applied to each element the value iterates over, same length, same order.
   */
  function GetListWith(x: Json, key: string, f: Json --> Outcome<Value>): (r: Outcome<Value>)
    requires forall v :: Depth(v) < Depth(x) ==> f.requires(v)
    ensures x.Object? && !HasKey(x, key) ==> r == Ok(NoneValue)
    ensures r.Ok? && r.value != NoneValue ==>
      HasKey(x, key) && Iterate(Lookup(x, key)).Ok? && r.value.List? &&
      var items := Iterate(Lookup(x, key)).value;
      |r.value.items| == |items| && forall i :: 0 <= i < |items| ==> f(items[i]) == Ok(r.value.items[i])
    ensures HasKey(x, key) && Iterate(Lookup(x, key)).Err? ==> r == Err(Exception(TypeError))
    ensures HasKey(x, key) && Iterate(Lookup(x, key)).Ok? ==>
      var items := Iterate(Lookup(x, key)).value;
      (forall i :: 0 <= i < |items| ==> f(items[i]).Ok?) ==> r.Ok? && r.value.List?
    ensures HasKey(x, key) ==> r.Err? || r.value.List?
    ensures HasKey(x, key) && Iterate(Lookup(x, key)).Ok? && r.Err? ==>
      var items := Iterate(Lookup(x, key)).value;
      exists k :: 0 <= k < |items| && f(items[k]) == Err(r.error) && forall i :: 0 <= i < k ==> f(items[i]).Ok?
    ensures (forall v :: Depth(v) < Depth(x) && f(v).Err? ==> f(v).error.Exception?) ==> (r.Err? ==> r.error.Exception?)
  {
    match Guarded(x, key)
    case Err(e) => Err(e)
    case Ok(None) => Ok(NoneValue)
    case Ok(Some(v)) =>
      match Iterate(v)
      case Err(e) => Err(e)
      case Ok(items) =>
        match MapList(items, f)
        case Err(e) => Err(e)
        case Ok(vs) => Ok(List(vs))
  }
}
