/**
 * The older extractor collection of `mercapi/models/base.py`. It differs from the one
 * of `mercapi/mapping/definitions.py` only in the two model extractors: here they call
 * the class's `from_dict` classmethod instead of `map_to_class`, and `get_as_model`
 * takes no mapping definition.
 */
module LegacyBase {
  import opened Wrappers
  import opened PyData
  import Combinators
  import Mapping

  /** An extractor as the static methods of `base.Extractors` build it. */
  datatype Extractor =
    | Get(key: string)
    | GetAs(key: string, cast: Combinators.Cast)
    | GetAsModel(key: string, model: ModelClass)
    | GetWith(key: string, mapper: Combinators.Mapper)
    | GetListWith(key: string, mapper: Combinators.Mapper)
    | GetListOfModel(key: string, model: ModelClass)

  /** `get_datetime(key)`: `get_with` and the timestamp conversion. */
  function GetDatetime(key: string): Extractor
  {
    GetWith(key, Combinators.Timestamp)
  }

  /** The extractor applied to a response. */
  function Extract(e: Extractor, x: Json, hooks: Combinators.Hooks): Outcome<Value>
  {
    match e
    case Get(key) => Combinators.Get(x, key)
    case GetAs(key, c) => Combinators.GetAs(x, key, c)
    case GetAsModel(key, model) => Combinators.GetWith(x, key, Combinators.Apply(Combinators.FromDict(model), hooks))
    case GetWith(key, m) => Combinators.GetWith(x, key, Combinators.Apply(m, hooks))
    case GetListWith(key, m) => Combinators.GetListWith(x, key, Combinators.Apply(m, hooks))
    case GetListOfModel(key, model) =>
      Combinators.GetListWith(x, key, Combinators.Apply(Combinators.FromDict(model), hooks))
  }

  /** The extractor of `mapping/definitions.py` built by the static method of the same name. */
  function Counterpart(e: Extractor): Mapping.Extractor
  {
    match e
    case Get(key) => Mapping.Get(key)
    case GetAs(key, c) => Mapping.GetAs(key, c)
    case GetAsModel(key, model) => Mapping.GetAsModel(key, model, None)
    case GetWith(key, m) => Mapping.GetWith(key, m)
    case GetListWith(key, m) => Mapping.GetListWith(key, m)
    case GetListOfModel(key, model) => Mapping.GetListOfModel(key, model)
  }

  /**
   * The contract the class documents: every extractor gives `None` when the dict
   * lacks its key, without calling the mapper or `from_dict`.
   */
  lemma AbsentKeyGivesNone(e: Extractor, x: Json, hooks: Combinators.Hooks)
    requires x.Object? && !HasKey(x, e.key)
    ensures Extract(e, x, hooks) == Ok(NoneValue)
  {
  }

  /**
   * The four extractors that do not build models behave as their counterparts in the newer
   * collection. It holds by construction: the lambdas at mercapi/models/base.py:44-68 and
   * mercapi/mapping/definitions.py:44-70 are textually the same, so both are modelled by the same `Combinators` functions.
   */
  lemma SharedExtractorsAgree(e: Extractor, x: Json, env: Mapping.Env)
    requires !e.GetAsModel? && !e.GetListOfModel?
    ensures Extract(e, x, env.hooks) == Mapping.Extract(Counterpart(e), x, env)
  {
  }

  /**
   * With the key present, the model extractors differ exactly in the call made on the
   * value: `model.from_dict(v)` here, `map_to_class(v, model)` in the newer collection.
   */
  lemma ModelExtractorsDiffer(key: string, model: ModelClass, x: Json, env: Mapping.Env)
    requires HasKey(x, key)
    ensures Extract(GetAsModel(key, model), x, env.hooks) == env.hooks.fromDict(model, Lookup(x, key))
    ensures Mapping.Extract(Counterpart(GetAsModel(key, model)), x, env) == Mapping.MapToClass(Lookup(x, key), model, None, env)
  {
  }

  /**
   * None of the classes defines `from_dict`, so the call raises `AttributeError`: a
   * present key makes `get_as_model` raise, and `get_list_of_model` raise unless the
   * value iterates over nothing, in which case it gives an empty list.
   */
  lemma MissingFromDictRaises(e: Extractor, x: Json, hooks: Combinators.Hooks)
    requires e.GetAsModel? || e.GetListOfModel?
    requires forall m, v :: hooks.fromDict(m, v) == Err(Exception(AttributeError))
    requires HasKey(x, e.key)
    ensures e.GetAsModel? ==> Extract(e, x, hooks) == Err(Exception(AttributeError))
    ensures e.GetListOfModel? && Iterate(Lookup(x, e.key)).Ok? ==>
      Extract(e, x, hooks) == if Iterate(Lookup(x, e.key)).value == [] then Ok(List([])) else Err(Exception(AttributeError))
  {
    if e.GetListOfModel? && Iterate(Lookup(x, e.key)).Ok? {
      var items := Iterate(Lookup(x, e.key)).value;
      var f := Combinators.Apply(Combinators.FromDict(e.model), hooks);
      if items != [] {
        assert f(items[0]).Err?;
      }
    }
  }

  /** `get_datetime` on a present key gives a `datetime` or raises an ordinary `Exception`; it never gives `None`. */
  lemma GetDatetimePresent(key: string, x: Json, hooks: Combinators.Hooks)
    requires HasKey(x, key)
    ensures var r := Extract(GetDatetime(key), x, hooks);
      (r.Ok? ==> r.value.DateTime?) && (r.Err? ==> r.error.Exception?)
  {
    Combinators.TimestampNeverNone(hooks, Lookup(x, key));
  }
}
