/**
 * The `mapping_definitions` registry that `mercapi/mapping/definitions.py` ships:
 * one entry, for `Item`, and the model classes its rows refer to. A model class
 * is identified by its name and its dataclass fields, in declaration order.
 */
module Registry {
  import opened Wrappers
  import opened PyData
  import opened Mapping
  import Combinators

  const ItemClass: ModelClass := Model("Item", [
    "id_", "seller", "status", "name", "price", "description", "photos", "photo_paths",
    "thumbnails", "item_category", "item_condition", "colors", "shipping_payer",
    "shipping_method", "shipping_from_area", "shipping_duration", "shipping_class",
    "num_likes", "num_comments", "comments", "updated", "created", "pager_id", "liked",
    "checksum", "is_dynamic_shipping_fee", "application_attributes", "is_shop_item",
    "is_anonymous_shipping", "is_web_visible", "is_offerable", "is_organizational_user",
    "organizational_user_status", "is_stock_item", "is_cancelable", "shipped_by_worker",
    "has_additional_service", "has_like_list", "is_offerable_v2"])

  const SellerClass: ModelClass := Model("Seller", [
    "id_", "name", "photo", "photo_thumbnail", "register_sms_confirmation",
    "register_sms_confirmation_at", "created", "num_sell_items", "ratings", "num_ratings",
    "score", "is_official", "quick_shipper", "star_rating_score"])
  const ItemCategoryClass: ModelClass := Model("ItemCategory", [
    "id_", "name", "tab_order", "display_order", "parent_category_id", "parent_category_name",
    "root_category_id", "root_category_name", "size_group_id", "brand_group_id", "children"])
  const ItemConditionClass: ModelClass := Model("ItemCondition", ["id_", "name"])
  const ColorClass: ModelClass := Model("Color", ["id_", "name", "rgb"])
  const ShippingPayerClass: ModelClass := Model("ShippingPayer", ["id_", "name", "code"])
  const ShippingMethodClass: ModelClass := Model("ShippingMethod", ["id_", "name", "is_deprecated"])
  const ShippingFromAreaClass: ModelClass := Model("ShippingFromArea", ["id_", "name"])
  const ShippingDurationClass: ModelClass := Model("ShippingDuration", ["id_", "name", "min_days", "max_days"])
  const ShippingClassClass: ModelClass := Model("ShippingClass", [
    "id_", "fee", "icon_id", "pickup_fee", "shipping_fee", "total_fee", "is_pickup"])
  const CommentClass: ModelClass := Model("Comment", ["id_", "message", "user", "created"])

  /** `ResponseProperty(name, name, Extractors.get(name))`. */
  function Plain(name: string): ResponseProperty
  {
    ResponseProperty(name, name, Get(name))
  }

  /** `ResponseProperty(name, name, Extractors.get_as_model(name, model))`. */
  function Nested(name: string, model: ModelClass): ResponseProperty
  {
    ResponseProperty(name, name, GetAsModel(name, model, None))
  }

  /** `ResponseProperty(name, name, Extractors.get_list_with(name, lambda x: model.from_dict(x)))`. */
  function ListFromDict(name: string, model: ModelClass): ResponseProperty
  {
    ResponseProperty(name, name, GetListWith(name, Combinators.FromDict(model)))
  }

  /** `ResponseProperty(name, name, Extractors.get_datetime(name))`. */
  function Timestamp(name: string): ResponseProperty
  {
    ResponseProperty(name, name, GetDatetime(name))
  }

  const ItemRequired: seq<ResponseProperty> := [
    ResponseProperty("id", "id_", Get("id")),
    Plain("status"),
    Plain("name"),
    Plain("price")
  ]

  const ItemOptional: seq<ResponseProperty> := [
    Nested("seller", SellerClass),
    Plain("description"),
    Plain("photos"),
    Plain("photo_paths"),
    Plain("thumbnails"),
    Nested("item_category", ItemCategoryClass),
    Nested("item_condition", ItemConditionClass),
    ListFromDict("colors", ColorClass),
    Nested("shipping_payer", ShippingPayerClass),
    Nested("shipping_method", ShippingMethodClass),
    Nested("shipping_from_area", ShippingFromAreaClass),
    Nested("shipping_duration", ShippingDurationClass),
    Nested("shipping_class", ShippingClassClass),
    Plain("num_likes"),
    Plain("num_comments"),
    ListFromDict("comments", CommentClass),
    Timestamp("updated"),
    Timestamp("created"),
    Plain("pager_id"),
    Plain("liked"),
    Plain("checksum"),
    Plain("is_dynamic_shipping_fee"),
    Plain("application_attributes"),
    Plain("is_shop_item"),
    Plain("is_anonymous_shipping"),
    Plain("is_web_visible"),
    Plain("is_offerable"),
    Plain("is_organizational_user"),
    Plain("organizational_user_status"),
    Plain("is_stock_item"),
    Plain("is_cancelable"),
    Plain("shipped_by_worker"),
    Plain("has_additional_service"),
    Plain("has_like_list"),
    Plain("is_offerable_v2")
  ]

  const ItemDefinition: Definition := Definition(ItemRequired, ItemOptional)

  /** The registry as shipped: only `Item` has a definition. */
  const MappingDefinitions: map<ModelClass, Definition> := map[ItemClass := ItemDefinition]

  /** The raw names of the required `Item` rows, in the order they are checked. */
  const ItemRequiredKeys: seq<string> := ["id", "status", "name", "price"]

  const ItemOptionalNames: seq<string> := [
    "seller", "description", "photos", "photo_paths", "thumbnails", "item_category",
    "item_condition", "colors", "shipping_payer", "shipping_method", "shipping_from_area",
    "shipping_duration", "shipping_class", "num_likes", "num_comments", "comments", "updated",
    "created", "pager_id", "liked", "checksum", "is_dynamic_shipping_fee",
    "application_attributes", "is_shop_item", "is_anonymous_shipping", "is_web_visible",
    "is_offerable", "is_organizational_user", "organizational_user_status", "is_stock_item",
    "is_cancelable", "shipped_by_worker", "has_additional_service", "has_like_list",
    "is_offerable_v2"]
  const ItemRequiredNames: seq<string> := ["id_", "status", "name", "price"]

  function NameList(props: seq<ResponseProperty>): (names: seq<string>)
    ensures |names| == |props| && forall i :: 0 <= i < |props| ==> names[i] == props[i].modelName
  {
    seq(|props|, i requires 0 <= i < |props| => props[i].modelName)
  }

  lemma NamesOfList(props: seq<ResponseProperty>)
    ensures Names(props) == set n | n in NameList(props)
  {
    var names := NameList(props);
    forall n | n in names ensures n in Names(props) {
      var i :| 0 <= i < |names| && names[i] == n;
      assert props[i].modelName == n;
    }
  }

  lemma SameElements(a: seq<string>, b: seq<string>)
    requires forall i :: 0 <= i < |a| ==> a[i] in b
    requires forall i :: 0 <= i < |b| ==> b[i] in a
    ensures (set n | n in a) == (set n | n in b)
  {
    forall n | n in a ensures n in b {
      var i :| 0 <= i < |a| && a[i] == n;
    }
    forall n | n in b ensures n in a {
      var i :| 0 <= i < |b| && b[i] == n;
    }
  }

  /** The rows of the shipped definition, as names. */
  lemma ItemNameLists()
    ensures NameList(ItemRequired) == ItemRequiredNames
    ensures NameList(ItemOptional) == ItemOptionalNames
  {
  }

  /** The required `Item` rows are `get` of `id` (bound as `id_`), `status`, `name` and `price`, in that order. */
  lemma ItemRequiredRows()
    ensures |ItemRequired| == |ItemRequiredKeys|
    ensures forall i :: 0 <= i < |ItemRequired| ==>
      ItemRequired[i].rawName == ItemRequiredKeys[i] && ItemRequired[i].extractor == Get(ItemRequiredKeys[i])
    ensures NameList(ItemRequired) == ItemRequiredNames
  {
  }

  /** Together, the rows of the `Item` definition name exactly the fields of the `Item` dataclass. */
  lemma ItemFieldsCovered()
    ensures Names(ItemRequired) + Names(ItemOptional) == set p | p in ItemClass.params
  {
    ItemNameLists();
    var all := ItemRequiredNames + ItemOptionalNames;
    assert forall i :: 0 <= i < |ItemClass.params| ==> ItemClass.params[i] in all;
    assert forall i :: 0 <= i < |all| ==> all[i] in ItemClass.params;
    NamesOfList(ItemRequired);
    NamesOfList(ItemOptional);
    SameElements(all, ItemClass.params);
  }

  /** No two rows of the `Item` definition bind the same field, so each field gets its own row's value. */
  lemma ItemNamesDistinct()
    ensures Names(ItemRequired) !! Names(ItemOptional)
    ensures forall i :: 0 <= i < |ItemRequired| ==> LastOf(ItemRequired, i)
    ensures forall i :: 0 <= i < |ItemOptional| ==> LastOf(ItemOptional, i)
  {
    RequiredNotOptional();
    OptionalNamesDistinct();
  }

  lemma RequiredNotOptional()
    ensures Names(ItemRequired) !! Names(ItemOptional)
  {
  }

  lemma OptionalNamesDistinct()
    ensures forall i :: 0 <= i < |ItemOptional| ==> LastOf(ItemOptional, i)
  {
    ItemNameLists();
    OptionalNamesFirst();
    OptionalNamesHead();
    OptionalNamesMiddle();
    OptionalNamesLate();
    OptionalNamesTail();
    forall i | 0 <= i < |ItemOptional| ensures LastOf(ItemOptional, i) {
      forall j | i < j < |ItemOptional| ensures ItemOptional[j].modelName != ItemOptional[i].modelName {
        assert ItemOptional[j].modelName == ItemOptionalNames[j];
        assert ItemOptional[i].modelName == ItemOptionalNames[i];
      }
    }
  }

  /** `seller`, `description` and `photos` do not recur later in the optional names. */
  lemma OptionalNamesFirst()
    ensures forall i, j :: 0 <= i < 3 && i < j < |ItemOptionalNames| ==> ItemOptionalNames[i] != ItemOptionalNames[j]
  {
  }

  /** Nor do `photo_paths`, `thumbnails` and `item_category`. */
  lemma OptionalNamesHead()
    ensures forall i, j :: 3 <= i < 6 && i < j < |ItemOptionalNames| ==> ItemOptionalNames[i] != ItemOptionalNames[j]
  {
  }

  /** Nor do `item_condition` to `shipping_class`. */
  lemma OptionalNamesMiddle()
    ensures forall i, j :: 6 <= i < 13 && i < j < |ItemOptionalNames| ==> ItemOptionalNames[i] != ItemOptionalNames[j]
  {
  }

  /** Nor do `num_likes` to `checksum`. */
  lemma OptionalNamesLate()
    ensures forall i, j :: 13 <= i < 21 && i < j < |ItemOptionalNames| ==> ItemOptionalNames[i] != ItemOptionalNames[j]
  {
  }

  /** Nor does any name from `is_dynamic_shipping_fee` on. */
  lemma OptionalNamesTail()
    ensures forall i, j :: 21 <= i < 35 && i < j < |ItemOptionalNames| ==> ItemOptionalNames[i] != ItemOptionalNames[j]
  {
  }

  /** `from_dict`, which no class shown defines, raises at most an ordinary `Exception`. */
  ghost predicate FromDictContained(hooks: Combinators.Hooks)
  {
    forall m: ModelClass, v: Json :: hooks.fromDict(m, v).Err? ==> hooks.fromDict(m, v).error.Exception?
  }

  /** The kinds of extractor the `Item` rows use, against a registry: none can raise past an `except Exception`. */
  predicate Contained(e: Extractor, registry: map<ModelClass, Definition>)
  {
    e.Get?
    || (e.GetWith? && e.mapper.Timestamp?)
    || (e.GetListWith? && e.mapper.FromDict?)
    || (e.GetAsModel? && e.mapDef.None? && e.model != ResponseModel && e.model !in registry)
  }

  lemma ContainedNeverEscapes(e: Extractor, x: Json, env: Env)
    requires Contained(e, env.registry) && FromDictContained(env.hooks)
    ensures !Escapes(Extract(e, x, env))
    ensures e.GetAsModel? ==> Bound(Extract(e, x, env)) == NoneValue
  {
    var hooks := env.hooks;
    match e
    case Get(_) =>
    case GetWith(key, m) =>
      forall v ensures Combinators.Apply(m, hooks)(v).Err? ==> Combinators.Apply(m, hooks)(v).error.Exception? {
        Combinators.TimestampNeverNone(hooks, v);
      }
    case GetListWith(key, m) =>
    case GetAsModel(key, model, mapDef) =>
      UndefinedModelGivesNone(key, model, mapDef, x, env);
  }

  lemma ItemOptionalContained()
    ensures forall i :: 0 <= i < |ItemOptional| ==> Contained(ItemOptional[i].extractor, MappingDefinitions)
  {
  }

  /** The environment of the shipped package: its registry, with whatever `from_dict` and the timestamp conversion do. */
  function ShippedEnv(hooks: Combinators.Hooks): Env
  {
    Env(MappingDefinitions, hooks)
  }

  /** The `Item` fields mapped with `get_as_model`. */
  const ItemNestedFields: seq<string> := [
    "seller", "item_category", "item_condition", "shipping_payer", "shipping_method",
    "shipping_from_area", "shipping_duration", "shipping_class"]

  /** The fields the `get_as_model` rows bind. */
  lemma ItemNestedRows()
    ensures forall n :: n in ItemNestedFields ==>
      exists i :: 0 <= i < |ItemOptional| && ItemOptional[i].modelName == n && ItemOptional[i].extractor.GetAsModel?
  {
    assert ItemOptional[0].modelName == "seller";
    assert ItemOptional[5].modelName == "item_category";
    assert ItemOptional[6].modelName == "item_condition";
    assert ItemOptional[8].modelName == "shipping_payer";
    assert ItemOptional[9].modelName == "shipping_method";
    assert ItemOptional[10].modelName == "shipping_from_area";
    assert ItemOptional[11].modelName == "shipping_duration";
    assert ItemOptional[12].modelName == "shipping_class";
  }

  /**
   * Any registered definition shaped like the `Item` one (required rows that are plain
   * `get`s, optional rows that cannot escape, each field named by one row) maps a
   * response exactly when the required keys are present and not null.
   */
  lemma ContainedDefinitionMapping(x: Json, clazz: ModelClass, d: Definition, env: Env)
    requires clazz != ResponseModel && clazz in env.registry && env.registry[clazz] == d
    requires FromDictContained(env.hooks)
    requires d.required != []
    requires forall i :: 0 <= i < |d.required| ==> d.required[i].extractor == Get(d.required[i].rawName)
    requires forall i :: 0 <= i < |d.optional| ==> Contained(d.optional[i].extractor, env.registry)
    requires Names(d.required) + Names(d.optional) == set p | p in clazz.params
    requires Names(d.required) !! Names(d.optional)
    requires forall i :: 0 <= i < |d.required| ==> LastOf(d.required, i)
    requires forall i :: 0 <= i < |d.optional| ==> LastOf(d.optional, i)
    ensures MapToClass(x, clazz, None, env).Ok? <==>
      x.Object? && forall i :: 0 <= i < |d.required| ==>
        HasKey(x, d.required[i].rawName) && Lookup(x, d.required[i].rawName) != Null
    ensures MapToClass(x, clazz, None, env).Ok? ==>
      var v := MapToClass(x, clazz, None, env).value;
      v.Record? && v.model == clazz && v.fields.Keys == Names(d.required) + Names(d.optional)
      && (forall i :: 0 <= i < |d.required| ==>
            HasKey(x, d.required[i].rawName) && v.fields[d.required[i].modelName] == Raw(Lookup(x, d.required[i].rawName)))
      && (forall i :: 0 <= i < |d.optional| && d.optional[i].extractor.Get? ==>
            v.fields[d.optional[i].modelName] == Combinators.Get(x, d.optional[i].extractor.key).value)
      && (forall i :: 0 <= i < |d.optional| && d.optional[i].extractor.GetAsModel? ==>
            v.fields[d.optional[i].modelName] == NoneValue)
      && (forall i :: 0 <= i < |d.optional| ==>
            v.fields[d.optional[i].modelName] == Bound(Row(d.optional[i], x, env)))
  {
    forall i | 0 <= i < |d.optional|
      ensures !Escapes(Row(d.optional[i], x, env))
      ensures d.optional[i].extractor.GetAsModel? ==> Bound(Row(d.optional[i], x, env)) == NoneValue
    {
      ContainedNeverEscapes(d.optional[i].extractor, x, env);
    }
    GetRowsUsable(d.required, x, env);
    MapToClassSpec(x, clazz, None, env, d);
    if MapToClass(x, clazz, None, env).Ok? {
      forall i | 0 <= i < |d.required| ensures d.required[i].modelName !in Names(d.optional) {
        assert d.required[i].modelName in Names(d.required);
      }
    }
  }

  /** Rows (at least one) that are plain `get`s of their raw names are all usable exactly when every key is present and not null. */
  lemma GetRowsUsable(rows: seq<ResponseProperty>, x: Json, env: Env)
    requires rows != []
    requires forall i :: 0 <= i < |rows| ==> rows[i].extractor == Get(rows[i].rawName)
    ensures (forall i :: 0 <= i < |rows| ==> Usable(Row(rows[i], x, env))) <==>
      x.Object? && forall i :: 0 <= i < |rows| ==> HasKey(x, rows[i].rawName) && Lookup(x, rows[i].rawName) != Null
    ensures forall i :: 0 <= i < |rows| && Usable(Row(rows[i], x, env)) ==>
      HasKey(x, rows[i].rawName) && Row(rows[i], x, env) == Ok(Raw(Lookup(x, rows[i].rawName)))
  {
    forall i | 0 <= i < |rows|
      ensures Usable(Row(rows[i], x, env)) <==>
        x.Object? && HasKey(x, rows[i].rawName) && Lookup(x, rows[i].rawName) != Null
      ensures Usable(Row(rows[i], x, env)) ==>
        HasKey(x, rows[i].rawName) && Row(rows[i], x, env) == Ok(Raw(Lookup(x, rows[i].rawName)))
    {
      assert Row(rows[i], x, env) == Combinators.Get(x, rows[i].rawName);
    }
    if forall i :: 0 <= i < |rows| ==> Usable(Row(rows[i], x, env)) {
      assert Usable(Row(rows[0], x, env));
    }
  }

  /**
   * Mapping an `Item` response with the shipped registry succeeds exactly when the
   * response is a dict in which `id`, `status`, `name` and `price` are present and not
   * null. The instance then holds those four values, every optional `get` field holds
   * `response.get(key)`, and every field mapped with `get_as_model` is `None`: none of
   * those classes is registered, so the nested `map_to_class` raises a `ValueError`
   * that the optional loop swallows.
   */
  lemma ItemMapping(x: Json, hooks: Combinators.Hooks)
    requires FromDictContained(hooks)
    ensures MapToClass(x, ItemClass, None, ShippedEnv(hooks)).Ok? <==>
      x.Object? && forall i :: 0 <= i < |ItemRequired| ==>
        HasKey(x, ItemRequired[i].rawName) && Lookup(x, ItemRequired[i].rawName) != Null
    ensures MapToClass(x, ItemClass, None, ShippedEnv(hooks)).Ok? ==>
      var item := MapToClass(x, ItemClass, None, ShippedEnv(hooks)).value;
      item.Record? && item.model == ItemClass && item.fields.Keys == Names(ItemRequired) + Names(ItemOptional)
      && (forall i :: 0 <= i < |ItemRequired| ==>
            HasKey(x, ItemRequired[i].rawName) && item.fields[ItemRequired[i].modelName] == Raw(Lookup(x, ItemRequired[i].rawName)))
      && (forall i :: 0 <= i < |ItemOptional| && ItemOptional[i].extractor.Get? ==>
            item.fields[ItemOptional[i].modelName] == Combinators.Get(x, ItemOptional[i].extractor.key).value)
      && (forall i :: 0 <= i < |ItemOptional| && ItemOptional[i].extractor.GetAsModel? ==>
            item.fields[ItemOptional[i].modelName] == NoneValue)
      && (forall i :: 0 <= i < |ItemOptional| ==>
            item.fields[ItemOptional[i].modelName] == Bound(Row(ItemOptional[i], x, ShippedEnv(hooks))))
      && item.fields.Keys == (set p | p in ItemClass.params)
  {
    ItemRequiredRows();
    ItemFieldsCovered();
    ItemNamesDistinct();
    ItemOptionalContained();
    ContainedDefinitionMapping(x, ItemClass, ItemDefinition, ShippedEnv(hooks));
  }

  /**
   * An `Item` response that is not a dict, or lacks one of the required keys (or holds
   * null there), is refused with a `ParseAPIResponseError` naming the first such key.
   */
  lemma ItemMissingRequired(x: Json, hooks: Combinators.Hooks, k: nat)
    requires k < |ItemRequiredKeys|
    requires forall i :: 0 <= i < k ==> x.Object? && HasKey(x, ItemRequiredKeys[i]) && Lookup(x, ItemRequiredKeys[i]) != Null
    requires !(x.Object? && HasKey(x, ItemRequiredKeys[k]) && Lookup(x, ItemRequiredKeys[k]) != Null)
    ensures MapToClass(x, ItemClass, None, ShippedEnv(hooks)) == Err(ParseAPIResponseError("Item", ItemRequiredKeys[k]))
  {
    ItemRequiredRows();
    assert Resolve(ItemClass, None, MappingDefinitions) == Some(ItemDefinition);
    RequiredFailure(x, ItemClass, None, ShippedEnv(hooks), ItemDefinition, k);
  }

  /** An empty list when the key holds a value that iterates over nothing, `None` otherwise. */
  function EmptyListOrNone(x: Json, key: string): Value
  {
    if HasKey(x, key) && Iterate(Lookup(x, key)) == Ok([]) then List([]) else NoneValue
  }

  /**
   * An optional `get_list_with(key, lambda x: model.from_dict(x))` row when no class
   * defines `from_dict`: the first element raises `AttributeError`, which the optional
   * loop swallows, so only a value with no elements gives a list.
   */
  lemma FromDictListRow(key: string, model: ModelClass, x: Json, env: Env)
    requires forall m, v :: env.hooks.fromDict(m, v) == Err(Exception(AttributeError))
    ensures !Escapes(Extract(GetListWith(key, Combinators.FromDict(model)), x, env))
    ensures Bound(Extract(GetListWith(key, Combinators.FromDict(model)), x, env)) == EmptyListOrNone(x, key)
  {
    var f := Combinators.Apply(Combinators.FromDict(model), env.hooks);
    var r := Extract(GetListWith(key, Combinators.FromDict(model)), x, env);
    if HasKey(x, key) && Iterate(Lookup(x, key)).Ok? {
      var items := Iterate(Lookup(x, key)).value;
      if items != [] {
        assert f(items[0]).Err?;
        assert r.Err?;
      }
    }
  }

  /**
   * Without `from_dict`, a mapped `Item` has `colors` and `comments` set to `None`
   * unless the response holds an empty list there.
   */
  lemma ItemListsWithoutFromDict(x: Json, hooks: Combinators.Hooks)
    requires forall m, v :: hooks.fromDict(m, v) == Err(Exception(AttributeError))
    ensures MapToClass(x, ItemClass, None, ShippedEnv(hooks)).Ok? ==>
      var item := MapToClass(x, ItemClass, None, ShippedEnv(hooks)).value;
      item.Record? && "colors" in item.fields && "comments" in item.fields
      && item.fields["colors"] == EmptyListOrNone(x, "colors")
      && item.fields["comments"] == EmptyListOrNone(x, "comments")
  {
    var env := ShippedEnv(hooks);
    assert Resolve(ItemClass, None, env.registry) == Some(ItemDefinition);
    OptionalNamesDistinct();
    assert ItemOptional[7] == ListFromDict("colors", ColorClass);
    assert ItemOptional[15] == ListFromDict("comments", CommentClass);
    OptionalField(x, ItemClass, None, env, ItemDefinition, 7);
    OptionalField(x, ItemClass, None, env, ItemDefinition, 15);
    FromDictListRow("colors", ColorClass, x, env);
    FromDictListRow("comments", CommentClass, x, env);
  }
}
