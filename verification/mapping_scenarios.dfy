/**
 * The scenarios of `tests/mapping/test_map_to_class.py`, stated for every
 * environment: the test models, their definitions, and what `map_to_class` gives on
 * the responses the tests use.
 */
module MappingScenarios {
  import opened Wrappers
  import opened PyData
  import opened Mapping

  const ModelTest := Model("ModelTest", ["field_1", "field_2"])
  const ModelTestBNested := Model("ModelTestBNested", ["field_a", "field_b"])
  const ModelTestB := Model("ModelTestB", ["field_1", "field_nested"])
  const ModelTestC := Model("ModelTestC", ["list_a"])
  const ModelTestD := Model("ModelTestD", ["list_nested"])

  const ModelTestDefinition := Definition(
    [ResponseProperty("field1", "field_1", Get("field1"))],
    [ResponseProperty("field2", "field_2", Get("field2"))])

  const ModelTestBDefinition := Definition(
    [ResponseProperty("field1", "field_1", Get("field1")),
     ResponseProperty("fieldNested", "field_nested", GetAsModel("fieldNested", ModelTestBNested, None))],
    [])

  const ModelTestBNestedDefinition := Definition(
    [ResponseProperty("fieldA", "field_a", Get("fieldA"))],
    [ResponseProperty("fieldB", "field_b", Get("fieldB"))])

  const ModelTestCDefinition := Definition(
    [ResponseProperty("listA", "list_a", Get("listA"))],
    [])

  const ModelTestDDefinition := Definition(
    [ResponseProperty("listNested", "list_nested", GetListOfModel("listNested", ModelTest))],
    [])

  /** A response holding `field1` and `field2` maps to a `ModelTest` with both. */
  lemma FullObject(env: Env)
    ensures var x := Object([Member("field1", Str("foo")), Member("field2", Str("bar"))]);
      MapToClass(x, ModelTest, Some(ModelTestDefinition), env)
        == Ok(Record(ModelTest, map["field_1" := Raw(Str("foo")), "field_2" := Raw(Str("bar"))]))
  {
  }

  /** Without `field2` the optional field is `None`. */
  lemma ObjectWithoutOptionals(env: Env)
    ensures var x := Object([Member("field1", Str("foo"))]);
      MapToClass(x, ModelTest, Some(ModelTestDefinition), env)
        == Ok(Record(ModelTest, map["field_1" := Raw(Str("foo")), "field_2" := NoneValue]))
  {
  }

  /** Without `field1` the required property is missing: `ParseAPIResponseError`. */
  lemma ObjectWithoutRequired(env: Env)
    ensures var x := Object([Member("field2", Str("bar"))]);
      MapToClass(x, ModelTest, Some(ModelTestDefinition), env) == Err(ParseAPIResponseError("ModelTest", "field1"))
  {
  }

  const NestedResponse := Object([Member("fieldA", Str("bar")), Member("fieldB", Str("baz"))])
  const NestedRecord := Record(ModelTestBNested, map["field_a" := Raw(Str("bar")), "field_b" := Raw(Str("baz"))])
  const ElementResponse := Object([Member("field1", Str("foo")), Member("field2", Str("bar"))])
  const ElementRecord := Record(ModelTest, map["field_1" := Raw(Str("foo")), "field_2" := Raw(Str("bar"))])

  lemma NestedPart(env: Env)
    requires ModelTestBNested in env.registry && env.registry[ModelTestBNested] == ModelTestBNestedDefinition
    ensures MapToClass(NestedResponse, ModelTestBNested, None, env) == Ok(NestedRecord)
  {
  }

  lemma ElementPart(env: Env)
    requires ModelTest in env.registry && env.registry[ModelTest] == ModelTestDefinition
    ensures MapToClass(ElementResponse, ModelTest, None, env) == Ok(ElementRecord)
  {
  }

  const NestedParent := Object([Member("field1", Str("foo")), Member("fieldNested", NestedResponse)])
  const NestedParentFields := map["field_1" := Raw(Str("foo")), "field_nested" := NestedRecord]

  lemma NestedRows(env: Env)
    requires ModelTestBNested in env.registry && env.registry[ModelTestBNested] == ModelTestBNestedDefinition
    ensures Row(ModelTestBDefinition.required[0], NestedParent, env) == Ok(Raw(Str("foo")))
    ensures Row(ModelTestBDefinition.required[1], NestedParent, env) == Ok(NestedRecord)
  {
    NestedPart(env);
    assert HasKey(NestedParent, "fieldNested") && Lookup(NestedParent, "fieldNested") == NestedResponse;
    GetAsModelMaps("fieldNested", ModelTestBNested, None, NestedParent, env);
  }

  lemma NestedRequired(env: Env)
    requires ModelTestBNested in env.registry && env.registry[ModelTestBNested] == ModelTestBNestedDefinition
    ensures RunRequired(ModelTestBDefinition.required, NestedParent, ModelTestB, env, map[]) == Ok(NestedParentFields)
  {
    var required := ModelTestBDefinition.required;
    NestedRows(env);
    var first := map["field_1" := Raw(Str("foo"))];
    RunRequiredStep(required, NestedParent, ModelTestB, env, map[]);
    RunRequiredStep(required[1..], NestedParent, ModelTestB, env, first);
    assert required[1..][1..] == [];
    assert first["field_nested" := NestedRecord] == NestedParentFields;
  }

  /** A nested object is mapped with the registered definition of its class. */
  lemma NestedObject(env: Env)
    requires ModelTestB in env.registry && env.registry[ModelTestB] == ModelTestBDefinition
    requires ModelTestBNested in env.registry && env.registry[ModelTestBNested] == ModelTestBNestedDefinition
    ensures var x := Object([Member("field1", Str("foo")), Member("fieldNested", NestedResponse)]);
      MapToClass(x, ModelTestB, None, env)
        == Ok(Record(ModelTestB, map["field_1" := Raw(Str("foo")), "field_nested" := NestedRecord]))
  {
    NestedRequired(env);
    assert (set p | p in ModelTestB.InitParams()) == NestedParentFields.Keys;
    assert MapToClass(NestedParent, ModelTestB, None, env) == Construct(ModelTestB, NestedParentFields);
  }

  /** A list of primitives is bound as it is. */
  lemma ListOfPrimitives(env: Env)
    ensures var x := Object([Member("listA", Array([Int(0), Int(1), Int(2), Int(3), Int(4)]))]);
      MapToClass(x, ModelTestC, Some(ModelTestCDefinition), env)
        == Ok(Record(ModelTestC, map["list_a" := Raw(Array([Int(0), Int(1), Int(2), Int(3), Int(4)]))]))
  {
  }

  const ListResponse := Object([Member("listNested", Array([ElementResponse]))])

  lemma ListPart(env: Env)
    requires ModelTest in env.registry && env.registry[ModelTest] == ModelTestDefinition
    ensures Extract(GetListOfModel("listNested", ModelTest), ListResponse, env) == Ok(List([ElementRecord]))
  {
    ElementPart(env);
    assert HasKey(ListResponse, "listNested") && Lookup(ListResponse, "listNested") == Array([ElementResponse]);
    var elements := Iterate(Array([ElementResponse])).value;
    assert elements == [ElementResponse];
    assert forall i :: 0 <= i < |elements| ==> MapToClass(elements[i], ModelTest, None, env).Ok?;
    GetListOfModelMaps("listNested", ModelTest, ListResponse, env);
    var r := Extract(GetListOfModel("listNested", ModelTest), ListResponse, env);
    assert r.Ok? && r.value.List?;
    assert |r.value.items| == 1;
    assert MapToClass(elements[0], ModelTest, None, env) == Ok(r.value.items[0]);
    assert r.value.items == [ElementRecord];
  }

  /** Each element of a list of nested objects is mapped with the registered definition of its class. */
  lemma ListOfNestedObjects(env: Env)
    requires ModelTest in env.registry && env.registry[ModelTest] == ModelTestDefinition
    requires ModelTestD in env.registry && env.registry[ModelTestD] == ModelTestDDefinition
    ensures MapToClass(ListResponse, ModelTestD, None, env) == Ok(Record(ModelTestD, map["list_nested" := List([ElementRecord])]))
  {
    var x := ListResponse;
    ListPart(env);
    var required := ModelTestDDefinition.required;
    assert Row(required[0], x, env) == Ok(List([ElementRecord]));
    var fields := map["list_nested" := List([ElementRecord])];
    assert RunRequired(required[1..], x, ModelTestD, env, fields) == Ok(fields);
    assert RunRequired(required, x, ModelTestD, env, map[]) == Ok(fields);
    assert (set p | p in ModelTestD.InitParams()) == fields.Keys;
    assert MapToClass(x, ModelTestD, None, env) == Construct(ModelTestD, fields);
  }
}
