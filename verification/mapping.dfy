/**
 * The response-mapping engine of `mercapi/mapping/definitions.py`: extractor
 * descriptors, mapping definitions (a list of required and a list of optional
 * `ResponseProperty` rows), and `map_to_class`, which resolves a definition,
 * runs the required rows, then the optional rows, and constructs the model.
 *
 * `MapToClass` is the specification: a function, recursive through the
 * extractors that map a nested object. `MapToClassRun` is the two loops of
 * the source, proved to compute it.
 */
module Mapping {
  import opened Wrappers
  import opened PyData
  import Combinators

  /** An extractor as the `Extractors` static methods build it. */
  datatype Extractor =
    | Get(key: string)
    | GetAs(key: string, cast: Combinators.Cast)
    | GetWith(key: string, mapper: Combinators.Mapper)
    | GetListWith(key: string, mapper: Combinators.Mapper)
    | GetAsModel(key: string, model: ModelClass, mapDef: Option<Definition>)
    | GetListOfModel(key: string, model: ModelClass)

  /** `ResponseProperty(raw_property_name, model_property_name, extractor)`. */
  datatype ResponseProperty = ResponseProperty(rawName: string, modelName: string, extractor: Extractor)

  /** `ResponseMappingDefinition(required_properties, optional_properties)`. */
  datatype Definition = Definition(required: seq<ResponseProperty>, optional: seq<ResponseProperty>)

  /** `get_datetime(key)`: `get_with` specialised to the timestamp conversion. */
  function GetDatetime(key: string): Extractor
  {
    GetWith(key, Combinators.Timestamp)
  }

  /** What `map_to_class` reads besides its arguments: the `mapping_definitions` registry, and the code it cannot see. */
  datatype Env = Env(registry: map<ModelClass, Definition>, hooks: Combinators.Hooks)

  /** The result of running one extractor on a response. */
  function Extract(e: Extractor, x: Json, env: Env): Outcome<Value>
    decreases Depth(x), 1, 0
  {
    match e
    case Get(key) => Combinators.Get(x, key)
    case GetAs(key, c) => Combinators.GetAs(x, key, c)
    case GetWith(key, m) => Combinators.GetWith(x, key, Combinators.Apply(m, env.hooks))
    case GetListWith(key, m) => Combinators.GetListWith(x, key, Combinators.Apply(m, env.hooks))
    case GetAsModel(key, model, mapDef) =>
      Combinators.GetWith(x, key, v requires Depth(v) < Depth(x) => MapToClass(v, model, mapDef, env))
    case GetListOfModel(key, model) =>
      Combinators.GetListWith(x, key, v requires Depth(v) < Depth(x) => MapToClass(v, model, None, env))
  }

  /** The definition `map_to_class` uses: the one passed in, else the registered one. */
  function Resolve(clazz: ModelClass, mapDef: Option<Definition>, registry: map<ModelClass, Definition>): Option<Definition>
  {
    if mapDef.Some? then mapDef
    else if clazz in registry then Some(registry[clazz])
    else None
  }

  /** `clazz(**kwargs)` for a dataclass without defaults: every field exactly once, or a `TypeError`. */
  function Construct(clazz: ModelClass, kwargs: map<string, Value>): Outcome<Value>
  {
    if kwargs.Keys == (set p | p in clazz.InitParams()) then Ok(Record(clazz, kwargs))
    else Err(Exception(TypeError))
  }

  /** `map_to_class(response, clazz, mapping_definition)`. */
  function MapToClass(x: Json, clazz: ModelClass, mapDef: Option<Definition>, env: Env): Outcome<Value>
    decreases Depth(x), 3, 0
  {
    if clazz == ResponseModel then Err(Exception(TypeError))
    else
      match Resolve(clazz, mapDef, env.registry)
      case None => Err(Exception(MissingDefinition(clazz.Name())))
      case Some(d) =>
        match RunRequired(d.required, x, clazz, env, map[])
        case Err(e) => Err(e)
        case Ok(bound) =>
          match RunOptional(d.optional, x, env, bound)
          case Err(e) => Err(e)
          case Ok(all) => Construct(clazz, all)
  }

  /**
   * The loop over the required rows, from keyword set `acc` on. A `None` or an
   * ordinary `Exception` becomes a `ParseAPIResponseError` naming the class and the
   * raw property; anything that is not an `Exception` passes through.
   */
  function RunRequired(props: seq<ResponseProperty>, x: Json, clazz: ModelClass, env: Env, acc: map<string, Value>)
    : Outcome<map<string, Value>>
    decreases Depth(x), 2, |props|
  {
    if props == [] then Ok(acc)
    else
      var p := props[0];
      match Extract(p.extractor, x, env)
      case Ok(v) =>
        if v == NoneValue then Err(ParseAPIResponseError(clazz.Name(), p.rawName))
        else RunRequired(props[1..], x, clazz, env, acc[p.modelName := v])
      case Err(Exception(_)) => Err(ParseAPIResponseError(clazz.Name(), p.rawName))
      case Err(e) => Err(e)
  }

  /**
   * The loop over the optional rows, from keyword set `acc` on. An ordinary
   * `Exception` binds `None`; anything that is not an `Exception` passes through.
   */
  function RunOptional(props: seq<ResponseProperty>, x: Json, env: Env, acc: map<string, Value>)
    : Outcome<map<string, Value>>
    decreases Depth(x), 2, |props|
  {
    if props == [] then Ok(acc)
    else
      var p := props[0];
      match Extract(p.extractor, x, env)
      case Ok(v) => RunOptional(props[1..], x, env, acc[p.modelName := v])
      case Err(Exception(_)) => RunOptional(props[1..], x, env, acc[p.modelName := NoneValue])
      case Err(e) => Err(e)
  }

  /** The raw names `_report_incorrect_optional` is called with, in order, until something escapes the loop. */
  function OptionalWarnings(props: seq<ResponseProperty>, x: Json, env: Env): seq<string>
  {
    if props == [] then []
    else
      match Extract(props[0].extractor, x, env)
      case Ok(_) => OptionalWarnings(props[1..], x, env)
      case Err(Exception(_)) => [props[0].rawName] + OptionalWarnings(props[1..], x, env)
      case Err(_) => []
  }

  /** The warnings one top-level call reports (nested calls report their own). */
  function Warnings(x: Json, clazz: ModelClass, mapDef: Option<Definition>, env: Env): seq<string>
  {
    if clazz == ResponseModel then []
    else
      match Resolve(clazz, mapDef, env.registry)
      case None => []
      case Some(d) =>
        if RunRequired(d.required, x, clazz, env, map[]).Err? then []
        else OptionalWarnings(d.optional, x, env)
  }

  /**
   * `map_to_class` as the source runs it: resolve the definition, fill the keyword
   * dict over the required rows and then the optional rows, construct the model.
   */
  method MapToClassRun(x: Json, clazz: ModelClass, mapDef: Option<Definition>, env: Env)
    returns (r: Outcome<Value>, warned: seq<string>)
    ensures r == MapToClass(x, clazz, mapDef, env)
    ensures warned == Warnings(x, clazz, mapDef, env)
  {
    if clazz == ResponseModel {
      return Err(Exception(TypeError)), [];
    }
    var mappingDefinition := mapDef;
    if mappingDefinition.None? {
      mappingDefinition := if clazz in env.registry then Some(env.registry[clazz]) else None;
    }
    if mappingDefinition.None? {
      return Err(Exception(MissingDefinition(clazz.Name()))), [];
    }
    var d := mappingDefinition.value;
    var required := RequiredLoop(d.required, x, clazz, env);
    if required.Err? {
      return Err(required.error), [];
    }
    var optional;
    optional, warned := OptionalLoop(d.optional, x, env, required.value);
    if optional.Err? {
      return Err(optional.error), warned;
    }
    r := Construct(clazz, optional.value);
  }

  /** The `for` loop over the required rows (lines 249-258), starting from an empty keyword dict. */
  method RequiredLoop(props: seq<ResponseProperty>, x: Json, clazz: ModelClass, env: Env)
    returns (r: Outcome<map<string, Value>>)
    ensures r == RunRequired(props, x, clazz, env, map[])
  {
    var initProperties: map<string, Value> := map[];
    var i := 0;
    while i < |props|
      invariant i <= |props|
      invariant RunRequired(props, x, clazz, env, map[]) == RunRequired(props[i..], x, clazz, env, initProperties)
    {
      var prop := props[i];
      RequiredLoopStep(props, i, x, clazz, env, initProperties);
      var rawProp := Extract(prop.extractor, x, env);
      if rawProp.Err? {
        return if rawProp.error.Exception? then Err(ParseAPIResponseError(clazz.Name(), prop.rawName)) else Err(rawProp.error);
      }
      if rawProp.value == NoneValue {
        return Err(ParseAPIResponseError(clazz.Name(), prop.rawName));
      }
      initProperties := initProperties[prop.modelName := rawProp.value];
      i := i + 1;
    }
    r := Ok(initProperties);
  }

  /**
   * The `for` loop over the optional rows (lines 260-266), continuing the keyword dict
   * `acc`; `warned` traces the calls of `_report_incorrect_optional`.
   */
  method OptionalLoop(props: seq<ResponseProperty>, x: Json, env: Env, acc: map<string, Value>)
    returns (r: Outcome<map<string, Value>>, warned: seq<string>)
    ensures r == RunOptional(props, x, env, acc)
    ensures warned == OptionalWarnings(props, x, env)
  {
    var initProperties := acc;
    warned := [];
    var i := 0;
    while i < |props|
      invariant i <= |props|
      invariant RunOptional(props, x, env, acc) == RunOptional(props[i..], x, env, initProperties)
      invariant OptionalWarnings(props, x, env) == warned + OptionalWarnings(props[i..], x, env)
    {
      var prop := props[i];
      OptionalLoopStep(props, i, x, env, initProperties);
      OptionalWarningsStep(props, i, x, env, warned);
      var rawProp := NoneValue;
      var extracted := Extract(prop.extractor, x, env);
      if extracted.Ok? {
        rawProp := extracted.value;
      } else if extracted.error.Exception? {
        warned := warned + [prop.rawName];
      } else {
        return Err(extracted.error), warned;
      }
      initProperties := initProperties[prop.modelName := rawProp];
      i := i + 1;
    }
    r := Ok(initProperties);
  }

  /** The result of a row's extractor on the response. */
  function Row(p: ResponseProperty, x: Json, env: Env): Outcome<Value>
  {
    Extract(p.extractor, x, env)
  }

  /** A result a required row accepts: nothing was raised and it is not `None` (`0`, `""`, `False`, `[]` are all accepted). */
  predicate Usable(r: Outcome<Value>)
  {
    r.Ok? && r.value != NoneValue
  }

  /** Raised, and not an `Exception`: no `except Exception` clause catches it. */
  predicate Escapes(r: Outcome<Value>)
  {
    r.Err? && !r.error.Exception?
  }

  /** What a failed required row raises: a non-`Exception` passes through, anything else becomes a `ParseAPIResponseError`. */
  function RequiredError(clazz: ModelClass, p: ResponseProperty, r: Outcome<Value>): Raised
  {
    if Escapes(r) then r.error else ParseAPIResponseError(clazz.Name(), p.rawName)
  }

  /** What an optional row binds when nothing escapes: the value, `None` included, or `None` for an `Exception`. */
  function Bound(r: Outcome<Value>): Value
  {
    if r.Ok? then r.value else NoneValue
  }

  /** The model property names a list of rows binds. */
  function Names(props: seq<ResponseProperty>): set<string>
  {
    set i | 0 <= i < |props| :: props[i].modelName
  }

  /** Row `i` is the last one binding its model property name, so its value is the one that stays. */
  predicate LastOf(props: seq<ResponseProperty>, i: int)
    requires 0 <= i < |props|
  {
    forall j :: i < j < |props| ==> props[j].modelName != props[i].modelName
  }

  /** One iteration of the required loop: the first row either stops the loop or extends the keyword dict. */
  lemma RunRequiredStep(props: seq<ResponseProperty>, x: Json, clazz: ModelClass, env: Env, acc: map<string, Value>)
    requires props != []
    ensures !Usable(Row(props[0], x, env)) ==>
      RunRequired(props, x, clazz, env, acc) == Err(RequiredError(clazz, props[0], Row(props[0], x, env)))
    ensures Usable(Row(props[0], x, env)) ==>
      RunRequired(props, x, clazz, env, acc)
        == RunRequired(props[1..], x, clazz, env, acc[props[0].modelName := Row(props[0], x, env).value])
  {
  }

  /** One iteration of the optional loop: the first row either ends the loop or binds what it gives. */
  lemma RunOptionalStep(props: seq<ResponseProperty>, x: Json, env: Env, acc: map<string, Value>)
    requires props != []
    ensures Escapes(Row(props[0], x, env)) ==> RunOptional(props, x, env, acc) == Err(Row(props[0], x, env).error)
    ensures !Escapes(Row(props[0], x, env)) ==>
      RunOptional(props, x, env, acc) == RunOptional(props[1..], x, env, acc[props[0].modelName := Bound(Row(props[0], x, env))])
  {
  }

  /** The warnings of one iteration of the optional loop: one for a swallowed `Exception`, none otherwise. */
  lemma OptionalWarningsUnfold(props: seq<ResponseProperty>, x: Json, env: Env)
    requires props != []
    ensures OptionalWarnings(props, x, env) ==
      if Row(props[0], x, env).Ok? then OptionalWarnings(props[1..], x, env)
      else if Escapes(Row(props[0], x, env)) then []
      else [props[0].rawName] + OptionalWarnings(props[1..], x, env)
  {
  }

  /** `RunRequiredStep` at row `i` of the loop. */
  lemma RequiredLoopStep(props: seq<ResponseProperty>, i: nat, x: Json, clazz: ModelClass, env: Env, acc: map<string, Value>)
    requires i < |props|
    ensures !Usable(Row(props[i], x, env)) ==>
      RunRequired(props[i..], x, clazz, env, acc) == Err(RequiredError(clazz, props[i], Row(props[i], x, env)))
    ensures Usable(Row(props[i], x, env)) ==>
      RunRequired(props[i..], x, clazz, env, acc)
        == RunRequired(props[i + 1..], x, clazz, env, acc[props[i].modelName := Row(props[i], x, env).value])
  {
    assert props[i..][1..] == props[i + 1..];
    RunRequiredStep(props[i..], x, clazz, env, acc);
  }

  /** `RunOptionalStep` at row `i` of the loop. */
  lemma OptionalLoopStep(props: seq<ResponseProperty>, i: nat, x: Json, env: Env, acc: map<string, Value>)
    requires i < |props|
    ensures Escapes(Row(props[i], x, env)) ==> RunOptional(props[i..], x, env, acc) == Err(Row(props[i], x, env).error)
    ensures !Escapes(Row(props[i], x, env)) ==>
      RunOptional(props[i..], x, env, acc) == RunOptional(props[i + 1..], x, env, acc[props[i].modelName := Bound(Row(props[i], x, env))])
  {
    assert props[i..][1..] == props[i + 1..];
    RunOptionalStep(props[i..], x, env, acc);
  }

  /** The warnings of the optional loop at row `i`, after the `warned` reported so far. */
  lemma OptionalWarningsStep(props: seq<ResponseProperty>, i: nat, x: Json, env: Env, warned: seq<string>)
    requires i < |props|
    ensures Escapes(Row(props[i], x, env)) ==> warned + OptionalWarnings(props[i..], x, env) == warned
    ensures Row(props[i], x, env).Ok? ==>
      warned + OptionalWarnings(props[i..], x, env) == warned + OptionalWarnings(props[i + 1..], x, env)
    ensures Row(props[i], x, env).Err? && !Escapes(Row(props[i], x, env)) ==>
      warned + OptionalWarnings(props[i..], x, env) == (warned + [props[i].rawName]) + OptionalWarnings(props[i + 1..], x, env)
  {
    assert props[i..][1..] == props[i + 1..];
    OptionalWarningsUnfold(props[i..], x, env);
    var rest := OptionalWarnings(props[i + 1..], x, env);
    var r := Row(props[i], x, env);
    if Escapes(r) {
      assert warned + [] == warned;
    } else if r.Err? {
      AppendAssociative(warned, [props[i].rawName], rest);
    }
  }

  lemma AppendAssociative(a: seq<string>, b: seq<string>, c: seq<string>)
    ensures a + (b + c) == (a + b) + c
  {
  }

  /** The names a non-empty list of rows binds: the first row's and those of the rest. */
  lemma NamesCons(props: seq<ResponseProperty>)
    requires props != []
    ensures Names(props) == {props[0].modelName} + Names(props[1..])
  {
    forall n | n in Names(props) ensures n in {props[0].modelName} + Names(props[1..]) {
      var i :| 0 <= i < |props| && props[i].modelName == n;
      if i > 0 {
        assert props[1..][i - 1].modelName == n;
      }
    }
    forall n | n in Names(props[1..]) ensures n in Names(props) {
      var i :| 0 <= i < |props| - 1 && props[1..][i].modelName == n;
      assert props[i + 1].modelName == n;
    }
  }

  /**
   * Binding the rows of a non-empty list one after the other: the first row's name
   * is bound last unless a later row binds it too, and row `i > 0` is the last of its
   * name exactly when it is so among the rest.
   */
  lemma LastOfCons(props: seq<ResponseProperty>)
    requires props != []
    ensures LastOf(props, 0) ==> props[0].modelName !in Names(props[1..])
    ensures forall i :: 0 < i < |props| && LastOf(props, i) ==> LastOf(props[1..], i - 1)
  {
    var tail := props[1..];
    if LastOf(props, 0) {
      forall j | 0 <= j < |tail| ensures tail[j].modelName != props[0].modelName {
        assert tail[j] == props[j + 1];
      }
    }
    forall i | 0 < i < |props| && LastOf(props, i) ensures LastOf(tail, i - 1) {
      forall j | i - 1 < j < |tail| ensures tail[j].modelName != tail[i - 1].modelName {
        assert tail[j] == props[j + 1] && tail[i - 1] == props[i];
      }
    }
  }

  /** What a successful required loop binds: every row was usable, and each name holds the value of its last row. */
  lemma {:induction false} RunRequiredBinds(props: seq<ResponseProperty>, x: Json, clazz: ModelClass, env: Env, acc: map<string, Value>)
    requires RunRequired(props, x, clazz, env, acc).Ok?
    ensures forall i :: 0 <= i < |props| ==> Usable(Row(props[i], x, env))
    ensures var m := RunRequired(props, x, clazz, env, acc).value;
      m.Keys == acc.Keys + Names(props)
      && (forall k :: k in acc && k !in Names(props) ==> m[k] == acc[k])
      && (forall i :: 0 <= i < |props| && LastOf(props, i) ==> Row(props[i], x, env) == Ok(m[props[i].modelName]))
    decreases |props|
  {
    if props != [] {
      var p, tail := props[0], props[1..];
      RunRequiredStep(props, x, clazz, env, acc);
      assert Usable(Row(p, x, env));
      var acc' := acc[p.modelName := Row(p, x, env).value];
      RunRequiredBinds(tail, x, clazz, env, acc');
      NamesCons(props);
      LastOfCons(props);
      forall i | 0 < i < |props| ensures props[i] == tail[i - 1] {
      }
    }
  }

  /** A failed required loop stopped at its first unusable row, and raised what that row decides. */
  lemma {:induction false} RunRequiredFails(props: seq<ResponseProperty>, x: Json, clazz: ModelClass, env: Env, acc: map<string, Value>)
    ensures (forall i :: 0 <= i < |props| ==> Usable(Row(props[i], x, env))) ==> RunRequired(props, x, clazz, env, acc).Ok?
    ensures RunRequired(props, x, clazz, env, acc).Err? ==>
      exists k :: 0 <= k < |props| && !Usable(Row(props[k], x, env))
        && (forall i :: 0 <= i < k ==> Usable(Row(props[i], x, env)))
        && RunRequired(props, x, clazz, env, acc).error == RequiredError(clazz, props[k], Row(props[k], x, env))
    decreases |props|
  {
    if props != [] {
      var p, tail := props[0], props[1..];
      var res := Row(p, x, env);
      RunRequiredStep(props, x, clazz, env, acc);
      if Usable(res) {
        var acc' := acc[p.modelName := res.value];
        RunRequiredFails(tail, x, clazz, env, acc');
        forall i | 0 < i < |props| ensures props[i] == tail[i - 1] {
        }
        if RunRequired(tail, x, clazz, env, acc').Err? {
          var k :| 0 <= k < |tail| && !Usable(Row(tail[k], x, env))
            && (forall i :: 0 <= i < k ==> Usable(Row(tail[i], x, env)))
            && RunRequired(tail, x, clazz, env, acc').error == RequiredError(clazz, tail[k], Row(tail[k], x, env));
          assert props[k + 1] == tail[k];
        }
      } else {
        assert !Usable(Row(props[0], x, env));
      }
    }
  }

  /**
   * The required loop: it succeeds iff every row gives a usable value, binding every
   * name of the rows (the last row of a name wins) and keeping what was bound before;
   * otherwise the first unusable row decides the error.
   */
  lemma RunRequiredSpec(props: seq<ResponseProperty>, x: Json, clazz: ModelClass, env: Env, acc: map<string, Value>)
    ensures RunRequired(props, x, clazz, env, acc).Ok? <==> forall i :: 0 <= i < |props| ==> Usable(Row(props[i], x, env))
    ensures RunRequired(props, x, clazz, env, acc).Ok? ==>
      RunRequired(props, x, clazz, env, acc).value.Keys == acc.Keys + Names(props)
    ensures RunRequired(props, x, clazz, env, acc).Ok? ==>
      forall k :: k in acc && k !in Names(props) ==> RunRequired(props, x, clazz, env, acc).value[k] == acc[k]
    ensures RunRequired(props, x, clazz, env, acc).Ok? ==>
      forall i :: 0 <= i < |props| && LastOf(props, i) ==>
        RunRequired(props, x, clazz, env, acc).value[props[i].modelName] == Row(props[i], x, env).value
    ensures RunRequired(props, x, clazz, env, acc).Err? ==>
      exists k :: 0 <= k < |props| && !Usable(Row(props[k], x, env))
        && (forall i :: 0 <= i < k ==> Usable(Row(props[i], x, env)))
        && RunRequired(props, x, clazz, env, acc).error == RequiredError(clazz, props[k], Row(props[k], x, env))
  {
    if RunRequired(props, x, clazz, env, acc).Ok? {
      RunRequiredBinds(props, x, clazz, env, acc);
    }
    RunRequiredFails(props, x, clazz, env, acc);
  }

  /** What a successful optional loop binds: nothing escaped, and each name holds what its last row binds. */
  lemma {:induction false} RunOptionalBinds(props: seq<ResponseProperty>, x: Json, env: Env, acc: map<string, Value>)
    requires RunOptional(props, x, env, acc).Ok?
    ensures forall i :: 0 <= i < |props| ==> !Escapes(Row(props[i], x, env))
    ensures var m := RunOptional(props, x, env, acc).value;
      m.Keys == acc.Keys + Names(props)
      && (forall k :: k in acc && k !in Names(props) ==> m[k] == acc[k])
      && (forall i :: 0 <= i < |props| && LastOf(props, i) ==> m[props[i].modelName] == Bound(Row(props[i], x, env)))
    decreases |props|
  {
    if props != [] {
      var p, tail := props[0], props[1..];
      RunOptionalStep(props, x, env, acc);
      assert !Escapes(Row(p, x, env));
      var acc' := acc[p.modelName := Bound(Row(p, x, env))];
      RunOptionalBinds(tail, x, env, acc');
      NamesCons(props);
      LastOfCons(props);
      forall i | 0 < i < |props| ensures props[i] == tail[i - 1] {
      }
    }
  }

  /** A failed optional loop stopped at its first row that let a non-`Exception` escape, and raised just that. */
  lemma {:induction false} RunOptionalFails(props: seq<ResponseProperty>, x: Json, env: Env, acc: map<string, Value>)
    ensures (forall i :: 0 <= i < |props| ==> !Escapes(Row(props[i], x, env))) ==> RunOptional(props, x, env, acc).Ok?
    ensures RunOptional(props, x, env, acc).Err? ==>
      exists k :: 0 <= k < |props| && Escapes(Row(props[k], x, env))
        && (forall i :: 0 <= i < k ==> !Escapes(Row(props[i], x, env)))
        && RunOptional(props, x, env, acc).error == Row(props[k], x, env).error
    decreases |props|
  {
    if props != [] {
      var p, tail := props[0], props[1..];
      var res := Row(p, x, env);
      RunOptionalStep(props, x, env, acc);
      if !Escapes(res) {
        var acc' := acc[p.modelName := Bound(res)];
        RunOptionalFails(tail, x, env, acc');
        forall i | 0 < i < |props| ensures props[i] == tail[i - 1] {
        }
        if RunOptional(tail, x, env, acc').Err? {
          var k :| 0 <= k < |tail| && Escapes(Row(tail[k], x, env))
            && (forall i :: 0 <= i < k ==> !Escapes(Row(tail[i], x, env)))
            && RunOptional(tail, x, env, acc').error == Row(tail[k], x, env).error;
          assert props[k + 1] == tail[k];
        }
      } else {
        assert Escapes(Row(props[0], x, env));
      }
    }
  }

  /**
   * The optional loop: it fails iff some row raises something that is not an
   * `Exception`, and then with what the first such row raised; otherwise it binds
   * every name of the rows (the last row of a name wins) and keeps what was bound before.
   */
  lemma RunOptionalSpec(props: seq<ResponseProperty>, x: Json, env: Env, acc: map<string, Value>)
    ensures RunOptional(props, x, env, acc).Ok? <==> forall i :: 0 <= i < |props| ==> !Escapes(Row(props[i], x, env))
    ensures RunOptional(props, x, env, acc).Ok? ==>
      RunOptional(props, x, env, acc).value.Keys == acc.Keys + Names(props)
    ensures RunOptional(props, x, env, acc).Ok? ==>
      forall k :: k in acc && k !in Names(props) ==> RunOptional(props, x, env, acc).value[k] == acc[k]
    ensures RunOptional(props, x, env, acc).Ok? ==>
      forall i :: 0 <= i < |props| && LastOf(props, i) ==>
        RunOptional(props, x, env, acc).value[props[i].modelName] == Bound(Row(props[i], x, env))
    ensures RunOptional(props, x, env, acc).Err? ==>
      exists k :: 0 <= k < |props| && Escapes(Row(props[k], x, env))
        && (forall i :: 0 <= i < k ==> !Escapes(Row(props[i], x, env)))
        && RunOptional(props, x, env, acc).error == Row(props[k], x, env).error
  {
    if RunOptional(props, x, env, acc).Ok? {
      RunOptionalBinds(props, x, env, acc);
    }
    RunOptionalFails(props, x, env, acc);
  }

  /**
   * The errors of `map_to_class` itself: `ResponseModel` is refused before anything
   * else, and the `ValueError` naming the class is raised exactly when no definition
   * is passed and none is registered. No other ordinary `Exception` leaves it except
   * the constructor's `TypeError`: one raised by a row becomes a
   * `ParseAPIResponseError` (required) or a `None` (optional).
   */
  lemma MapToClassErrors(x: Json, clazz: ModelClass, mapDef: Option<Definition>, env: Env)
    ensures clazz == ResponseModel ==> MapToClass(x, clazz, mapDef, env) == Err(Exception(TypeError))
    ensures clazz != ResponseModel ==>
      (MapToClass(x, clazz, mapDef, env) == Err(Exception(MissingDefinition(clazz.Name())))
       <==> mapDef.None? && clazz !in env.registry)
    ensures MapToClass(x, clazz, mapDef, env).Err? && MapToClass(x, clazz, mapDef, env).error.Exception? ==>
      MapToClass(x, clazz, mapDef, env).error.cls == TypeError
      || (mapDef.None? && clazz !in env.registry
          && MapToClass(x, clazz, mapDef, env).error.cls == MissingDefinition(clazz.Name()))
  {
    if clazz != ResponseModel && Resolve(clazz, mapDef, env.registry).Some? {
      var d := Resolve(clazz, mapDef, env.registry).value;
      RunRequiredSpec(d.required, x, clazz, env, map[]);
      var required := RunRequired(d.required, x, clazz, env, map[]);
      if required.Ok? {
        RunOptionalSpec(d.optional, x, env, required.value);
      }
    }
  }

  /**
   * Success: with the resolved definition `d`, `map_to_class` returns an instance of
   * `clazz` iff every required row gives a usable value, no optional row lets a
   * non-`Exception` escape, and the rows name exactly the fields of `clazz`. The
   * instance binds each name to the result of the last row naming it, optional
   * rows after required ones.
   */
  lemma MapToClassSpec(x: Json, clazz: ModelClass, mapDef: Option<Definition>, env: Env, d: Definition)
    requires clazz != ResponseModel && Resolve(clazz, mapDef, env.registry) == Some(d)
    ensures MapToClass(x, clazz, mapDef, env).Ok? <==>
      (forall i :: 0 <= i < |d.required| ==> Usable(Row(d.required[i], x, env)))
      && (forall i :: 0 <= i < |d.optional| ==> !Escapes(Row(d.optional[i], x, env)))
      && Names(d.required) + Names(d.optional) == (set p | p in clazz.params)
    ensures MapToClass(x, clazz, mapDef, env).Ok? ==>
      var v := MapToClass(x, clazz, mapDef, env).value;
      v.Record? && v.model == clazz && v.fields.Keys == (set p | p in clazz.params)
      && (forall i :: 0 <= i < |d.optional| && LastOf(d.optional, i) ==>
            v.fields[d.optional[i].modelName] == Bound(Row(d.optional[i], x, env)))
      && (forall i :: 0 <= i < |d.required| && LastOf(d.required, i) && d.required[i].modelName !in Names(d.optional) ==>
            v.fields[d.required[i].modelName] == Row(d.required[i], x, env).value)
  {
    MapToClassAccepts(x, clazz, mapDef, env, d);
    MapToClassFields(x, clazz, mapDef, env, d);
  }

  /** The acceptance half of `MapToClassSpec`. */
  lemma MapToClassAccepts(x: Json, clazz: ModelClass, mapDef: Option<Definition>, env: Env, d: Definition)
    requires clazz != ResponseModel && Resolve(clazz, mapDef, env.registry) == Some(d)
    ensures MapToClass(x, clazz, mapDef, env).Ok? <==>
      (forall i :: 0 <= i < |d.required| ==> Usable(Row(d.required[i], x, env)))
      && (forall i :: 0 <= i < |d.optional| ==> !Escapes(Row(d.optional[i], x, env)))
      && Names(d.required) + Names(d.optional) == (set p | p in clazz.params)
  {
    RunRequiredSpec(d.required, x, clazz, env, map[]);
    var required := RunRequired(d.required, x, clazz, env, map[]);
    if required.Ok? {
      RunOptionalSpec(d.optional, x, env, required.value);
      var optional := RunOptional(d.optional, x, env, required.value);
      if optional.Ok? {
        assert MapToClass(x, clazz, mapDef, env) == Construct(clazz, optional.value);
        assert optional.value.Keys == Names(d.required) + Names(d.optional);
      } else {
        assert MapToClass(x, clazz, mapDef, env) == Err(optional.error);
      }
    } else {
      assert MapToClass(x, clazz, mapDef, env) == Err(required.error);
    }
  }

  /** The binding half of `MapToClassSpec`. */
  lemma MapToClassFields(x: Json, clazz: ModelClass, mapDef: Option<Definition>, env: Env, d: Definition)
    requires clazz != ResponseModel && Resolve(clazz, mapDef, env.registry) == Some(d)
    ensures MapToClass(x, clazz, mapDef, env).Ok? ==>
      (forall i :: 0 <= i < |d.required| ==> Usable(Row(d.required[i], x, env)))
      && Names(d.required) + Names(d.optional) == (set p | p in clazz.params)
    ensures MapToClass(x, clazz, mapDef, env).Ok? ==>
      var v := MapToClass(x, clazz, mapDef, env).value;
      v.Record? && v.model == clazz && v.fields.Keys == (set p | p in clazz.params)
      && (forall i :: 0 <= i < |d.optional| && LastOf(d.optional, i) ==>
            v.fields[d.optional[i].modelName] == Bound(Row(d.optional[i], x, env)))
      && (forall i :: 0 <= i < |d.required| && LastOf(d.required, i) && d.required[i].modelName !in Names(d.optional) ==>
            v.fields[d.required[i].modelName] == Row(d.required[i], x, env).value)
  {
    var required := RunRequired(d.required, x, clazz, env, map[]);
    if required.Ok? {
      RunRequiredBinds(d.required, x, clazz, env, map[]);
      var optional := RunOptional(d.optional, x, env, required.value);
      if optional.Ok? {
        RunOptionalBinds(d.optional, x, env, required.value);
        assert MapToClass(x, clazz, mapDef, env) == Construct(clazz, optional.value);
      } else {
        assert MapToClass(x, clazz, mapDef, env) == Err(optional.error);
      }
    } else {
      assert MapToClass(x, clazz, mapDef, env) == Err(required.error);
    }
  }

  /** An optional row that is the last of its name fixes that field of a constructed instance. */
  lemma OptionalField(x: Json, clazz: ModelClass, mapDef: Option<Definition>, env: Env, d: Definition, k: nat)
    requires clazz != ResponseModel && Resolve(clazz, mapDef, env.registry) == Some(d)
    requires k < |d.optional| && LastOf(d.optional, k)
    ensures MapToClass(x, clazz, mapDef, env).Ok? ==>
      var v := MapToClass(x, clazz, mapDef, env).value;
      v.Record? && d.optional[k].modelName in v.fields
      && v.fields[d.optional[k].modelName] == Bound(Row(d.optional[k], x, env))
  {
    MapToClassSpec(x, clazz, mapDef, env, d);
    assert d.optional[k].modelName in Names(d.optional);
  }

  /**
   * Required rows run in declared order: the first unusable one decides the
   * outcome, and no instance is constructed. A `None` or an `Exception` gives a
   * `ParseAPIResponseError` naming the class and the raw property.
   */
  lemma RequiredFailure(x: Json, clazz: ModelClass, mapDef: Option<Definition>, env: Env, d: Definition, k: nat)
    requires clazz != ResponseModel && Resolve(clazz, mapDef, env.registry) == Some(d)
    requires k < |d.required| && !Usable(Row(d.required[k], x, env))
    requires forall i :: 0 <= i < k ==> Usable(Row(d.required[i], x, env))
    ensures MapToClass(x, clazz, mapDef, env) == Err(RequiredError(clazz, d.required[k], Row(d.required[k], x, env)))
    ensures !Escapes(Row(d.required[k], x, env)) ==>
      MapToClass(x, clazz, mapDef, env) == Err(ParseAPIResponseError(clazz.Name(), d.required[k].rawName))
  {
    RunRequiredSpec(d.required, x, clazz, env, map[]);
    var required := RunRequired(d.required, x, clazz, env, map[]);
    var j :| 0 <= j < |d.required| && !Usable(Row(d.required[j], x, env))
      && (forall i :: 0 <= i < j ==> Usable(Row(d.required[i], x, env)))
      && required.error == RequiredError(clazz, d.required[j], Row(d.required[j], x, env));
    assert j == k;
  }

  /**
   * With the required rows satisfied, the first optional row that raises something
   * other than an `Exception` ends `map_to_class` with that same error.
   */
  lemma OptionalEscape(x: Json, clazz: ModelClass, mapDef: Option<Definition>, env: Env, d: Definition, k: nat)
    requires clazz != ResponseModel && Resolve(clazz, mapDef, env.registry) == Some(d)
    requires forall i :: 0 <= i < |d.required| ==> Usable(Row(d.required[i], x, env))
    requires k < |d.optional| && Escapes(Row(d.optional[k], x, env))
    requires forall i :: 0 <= i < k ==> !Escapes(Row(d.optional[i], x, env))
    ensures MapToClass(x, clazz, mapDef, env) == Err(Row(d.optional[k], x, env).error)
  {
    RunRequiredSpec(d.required, x, clazz, env, map[]);
    var required := RunRequired(d.required, x, clazz, env, map[]);
    RunOptionalSpec(d.optional, x, env, required.value);
    var optional := RunOptional(d.optional, x, env, required.value);
    var j :| 0 <= j < |d.optional| && Escapes(Row(d.optional[j], x, env))
      && (forall i :: 0 <= i < j ==> !Escapes(Row(d.optional[i], x, env)))
      && optional.error == Row(d.optional[j], x, env).error;
    assert j == k;
  }

  /** Every extractor gives `None` for a key the response dict does not have. */
  lemma ExtractAbsent(e: Extractor, x: Json, env: Env)
    requires x.Object? && !HasKey(x, e.key)
    ensures Extract(e, x, env) == Ok(NoneValue)
  {
  }

  /** `get_as_model` maps the sub-object through `map_to_class`, with the given definition or else the registered one. */
  lemma GetAsModelMaps(key: string, model: ModelClass, mapDef: Option<Definition>, x: Json, env: Env)
    requires HasKey(x, key)
    ensures Extract(GetAsModel(key, model, mapDef), x, env) == MapToClass(Lookup(x, key), model, mapDef, env)
  {
  }

  /** `get_list_of_model` maps every element, in order, through `map_to_class` with the registered definition. */
  lemma GetListOfModelMaps(key: string, model: ModelClass, x: Json, env: Env)
    ensures var r := Extract(GetListOfModel(key, model), x, env);
      r.Ok? && r.value != NoneValue ==>
        HasKey(x, key) && Iterate(Lookup(x, key)).Ok? && r.value.List? &&
        var elements := Iterate(Lookup(x, key)).value;
        |r.value.items| == |elements|
        && forall i :: 0 <= i < |elements| ==> MapToClass(elements[i], model, None, env) == Ok(r.value.items[i])
    ensures HasKey(x, key) && Iterate(Lookup(x, key)).Ok? ==>
      var elements := Iterate(Lookup(x, key)).value;
      (forall i :: 0 <= i < |elements| ==> MapToClass(elements[i], model, None, env).Ok?) ==>
        Extract(GetListOfModel(key, model), x, env).Ok? && Extract(GetListOfModel(key, model), x, env).value.List?
    ensures HasKey(x, key) ==>
      var r := Extract(GetListOfModel(key, model), x, env);
      r.Err? || r.value.List?
    ensures HasKey(x, key) && Iterate(Lookup(x, key)).Ok? && Extract(GetListOfModel(key, model), x, env).Err? ==>
      var elements := Iterate(Lookup(x, key)).value;
      exists k :: 0 <= k < |elements|
        && MapToClass(elements[k], model, None, env) == Err(Extract(GetListOfModel(key, model), x, env).error)
        && forall i :: 0 <= i < k ==> MapToClass(elements[i], model, None, env).Ok?
  {
    var f := v requires Depth(v) < Depth(x) => MapToClass(v, model, None, env);
    assert Extract(GetListOfModel(key, model), x, env) == Combinators.GetListWith(x, key, f);
    if HasKey(x, key) && Iterate(Lookup(x, key)).Ok? {
      var elements := Iterate(Lookup(x, key)).value;
      forall i | 0 <= i < |elements| ensures f(elements[i]) == MapToClass(elements[i], model, None, env) {
        assert Depth(elements[i]) < Depth(x);
      }
    }
  }

  /**
   * The error of a `get_list_of_model` row is the error of its first element that
   * `map_to_class` cannot map, unchanged.
   */
  lemma ListFailureIsFirstElement(key: string, model: ModelClass, x: Json, env: Env, j: nat)
    requires HasKey(x, key) && Iterate(Lookup(x, key)).Ok?
    requires j < |Iterate(Lookup(x, key)).value|
    requires forall i :: 0 <= i < j ==> MapToClass(Iterate(Lookup(x, key)).value[i], model, None, env).Ok?
    requires MapToClass(Iterate(Lookup(x, key)).value[j], model, None, env).Err?
    ensures Extract(GetListOfModel(key, model), x, env)
      == Err(MapToClass(Iterate(Lookup(x, key)).value[j], model, None, env).error)
  {
    GetListOfModelMaps(key, model, x, env);
    var elements := Iterate(Lookup(x, key)).value;
    var r := Extract(GetListOfModel(key, model), x, env);
    assert r.Err?;
    var k :| 0 <= k < |elements| && MapToClass(elements[k], model, None, env) == Err(r.error)
      && forall i :: 0 <= i < k ==> MapToClass(elements[i], model, None, env).Ok?;
    assert k == j;
  }

  /** `get_datetime` is `None` exactly when the key is absent: a converted timestamp is never `None`. */
  lemma GetDatetimeAbsent(key: string, x: Json, env: Env)
    requires x.Object?
    ensures Extract(GetDatetime(key), x, env) == Ok(NoneValue) <==> !HasKey(x, key)
  {
    if HasKey(x, key) {
      Combinators.TimestampNeverNone(env.hooks, Lookup(x, key));
    }
  }

  /**
   * A nested `ParseAPIResponseError` is not caught by the optional loop: an optional
   * `get_as_model` row whose sub-object misses a required field makes the whole
   * `map_to_class` fail with the nested error, instead of binding `None`.
   */
  lemma NestedFailureEscapesOptional(
    x: Json, clazz: ModelClass, mapDef: Option<Definition>, env: Env, d: Definition, k: nat,
    key: string, model: ModelClass, nestedDef: Option<Definition>, nestedClass: string, property: string)
    requires clazz != ResponseModel && Resolve(clazz, mapDef, env.registry) == Some(d)
    requires forall i :: 0 <= i < |d.required| ==> Usable(Row(d.required[i], x, env))
    requires k < |d.optional| && d.optional[k].extractor == GetAsModel(key, model, nestedDef)
    requires forall i :: 0 <= i < k ==> !Escapes(Row(d.optional[i], x, env))
    requires HasKey(x, key)
    requires MapToClass(Lookup(x, key), model, nestedDef, env) == Err(ParseAPIResponseError(nestedClass, property))
    ensures MapToClass(x, clazz, mapDef, env) == Err(ParseAPIResponseError(nestedClass, property))
  {
    GetAsModelMaps(key, model, nestedDef, x, env);
    OptionalEscape(x, clazz, mapDef, env, d, k);
  }

  /**
   * Nor is it re-wrapped by the required loop: a required `get_as_model` row whose
   * sub-object fails propagates the nested error unchanged.
   */
  lemma NestedFailurePropagatesFromRequired(
    x: Json, clazz: ModelClass, mapDef: Option<Definition>, env: Env, d: Definition, k: nat,
    key: string, model: ModelClass, nestedDef: Option<Definition>, nestedClass: string, property: string)
    requires clazz != ResponseModel && Resolve(clazz, mapDef, env.registry) == Some(d)
    requires k < |d.required| && d.required[k].extractor == GetAsModel(key, model, nestedDef)
    requires forall i :: 0 <= i < k ==> Usable(Row(d.required[i], x, env))
    requires HasKey(x, key)
    requires MapToClass(Lookup(x, key), model, nestedDef, env) == Err(ParseAPIResponseError(nestedClass, property))
    ensures MapToClass(x, clazz, mapDef, env) == Err(ParseAPIResponseError(nestedClass, property))
  {
    GetAsModelMaps(key, model, nestedDef, x, env);
    RequiredFailure(x, clazz, mapDef, env, d, k);
  }

  /**
   * The same holds of a list row: an optional `get_list_of_model` row one of whose
   * elements misses a required field makes the whole `map_to_class` fail with the
   * first such element's error.
   */
  lemma NestedListFailureEscapesOptional(
    x: Json, clazz: ModelClass, mapDef: Option<Definition>, env: Env, d: Definition, k: nat,
    key: string, model: ModelClass, j: nat, nestedClass: string, property: string)
    requires clazz != ResponseModel && Resolve(clazz, mapDef, env.registry) == Some(d)
    requires forall i :: 0 <= i < |d.required| ==> Usable(Row(d.required[i], x, env))
    requires k < |d.optional| && d.optional[k].extractor == GetListOfModel(key, model)
    requires forall i :: 0 <= i < k ==> !Escapes(Row(d.optional[i], x, env))
    requires HasKey(x, key) && Iterate(Lookup(x, key)).Ok?
    requires j < |Iterate(Lookup(x, key)).value|
    requires forall i :: 0 <= i < j ==> MapToClass(Iterate(Lookup(x, key)).value[i], model, None, env).Ok?
    requires MapToClass(Iterate(Lookup(x, key)).value[j], model, None, env) == Err(ParseAPIResponseError(nestedClass, property))
    ensures MapToClass(x, clazz, mapDef, env) == Err(ParseAPIResponseError(nestedClass, property))
  {
    ListFailureIsFirstElement(key, model, x, env, j);
    OptionalEscape(x, clazz, mapDef, env, d, k);
  }

  /** A required `get_list_of_model` row propagates its first failing element's `ParseAPIResponseError` unchanged. */
  lemma NestedListFailurePropagatesFromRequired(
    x: Json, clazz: ModelClass, mapDef: Option<Definition>, env: Env, d: Definition, k: nat,
    key: string, model: ModelClass, j: nat, nestedClass: string, property: string)
    requires clazz != ResponseModel && Resolve(clazz, mapDef, env.registry) == Some(d)
    requires k < |d.required| && d.required[k].extractor == GetListOfModel(key, model)
    requires forall i :: 0 <= i < k ==> Usable(Row(d.required[i], x, env))
    requires HasKey(x, key) && Iterate(Lookup(x, key)).Ok?
    requires j < |Iterate(Lookup(x, key)).value|
    requires forall i :: 0 <= i < j ==> MapToClass(Iterate(Lookup(x, key)).value[i], model, None, env).Ok?
    requires MapToClass(Iterate(Lookup(x, key)).value[j], model, None, env) == Err(ParseAPIResponseError(nestedClass, property))
    ensures MapToClass(x, clazz, mapDef, env) == Err(ParseAPIResponseError(nestedClass, property))
  {
    ListFailureIsFirstElement(key, model, x, env, j);
    RequiredFailure(x, clazz, mapDef, env, d, k);
  }

  /**
   * A `get_as_model` of a class that has no definition can only give `None`: the
   * nested `map_to_class` raises `TypeError` or `ValueError`, an ordinary
   * `Exception`, which an optional row swallows.
   */
  lemma UndefinedModelGivesNone(key: string, model: ModelClass, mapDef: Option<Definition>, x: Json, env: Env)
    requires model == ResponseModel || Resolve(model, mapDef, env.registry).None?
    ensures !Escapes(Extract(GetAsModel(key, model, mapDef), x, env))
    ensures Bound(Extract(GetAsModel(key, model, mapDef), x, env)) == NoneValue
  {
    if HasKey(x, key) {
      GetAsModelMaps(key, model, mapDef, x, env);
    }
  }
}
