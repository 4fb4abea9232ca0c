# mercapi response mapping, search payload and pagination — a Dafny model

This project models the core of `mercapi`, an unofficial client for the Mercari
marketplace API, and proves properties of it:

- **The response-mapping engine** (`mercapi/mapping/definitions.py`):
  - the `Extractors` combinators (`get`, `get_as`, `get_with`, `get_list_with`,
    `get_as_model`, `get_list_of_model`, `get_datetime`);
  - the `mapping_definitions` registry with its one `Item` entry;
  - `map_to_class`, which resolves a definition, runs the required rows and then the
    optional rows, and constructs the model.

  `MapToClass` is the specification, a function that recurses through the nested-model
  extractors. `MapToClassRun` is the source's two loops, proved to compute it.
- **The older combinators** of `mercapi/models/base.py`. Here the nested-model
  extractors call `from_dict` instead of `map_to_class`.
- **`SearchRequestData.data`** (`mercapi/requests/search.py`): the status expansion,
  the whitelist of sort pairs, and the payload.
- **`SearchResults.next_page` / `prev_page`**
  (`mercapi/models/search/search_results.py`): the empty-token guard and the copy of
  the request.
- **`Color.rgb_code`** (`mercapi/models/item/data.py`): Python's `hex()`.

Python values are modelled as follows:

- Decoded JSON is `Json`. A dict is an ordered list of members. `json.loads` gives distinct
  keys (a repeated key in the text keeps only its last value); lookups take the member
  with the key, the first one if a list were to repeat it.
- Extracted values are `Value`. Python's `None` is `Raw(Null)`.
- Exceptions are `Raised`. It separates ordinary `Exception`s from
  `ParseAPIResponseError` and `IncorrectRequestError`, which derive from
  `BaseException`, so no `except Exception` clause catches them.
- The builtins the extractors rely on are modelled on Python's own behaviour:
  - `x.get(k)` raises `AttributeError` on a non-dict;
  - `k in x` tests a dict's keys, a list's elements or a substring of a str, and
    raises `TypeError` otherwise;
  - `x[k]`;
  - iteration gives a list's items, a str's characters or a dict's keys;
  - `int(x)` and `str(x)`.
- Code outside the model is a parameter (`Hooks`):
  - `datetime.fromtimestamp(float(x))`;
  - the `from_dict` classmethod, which none of the model classes shown defines.

Module by file: `wrappers.dfy` (Option, Result), `numerals.dfy` (decimal and hex
numerals and `int(s, base)`), `pydata.dfy`, `combinators.dfy`, `mapping.dfy`,
`registry.dfy`, `mapping_scenarios.dfy`, `legacy_base.dfy`, `search_request.dfy`,
`search_results.dfy`, `item_data.dfy`.

Behaviours of the code the model keeps:

- The optional loop catches only `Exception`. A nested `ParseAPIResponseError` raised
  inside an optional `get_as_model` escapes, so `map_to_class` fails.
- A missing definition raises `ValueError`. That is an ordinary `Exception`, so an
  optional nested row swallows it.
- `get_list_with` on a present value that is not iterable raises `TypeError`. It does
  not give an absent value. A str or dict value is iterated by characters or by keys.
- The optional warning carries only the raw property name.

## Model

| member | source | states |
|---|---|---|
| `PyData.ToStr` | mercapi/mapping/definitions.py:50-52 | Definition of `str(x)` as `get_as(key, str)` applies it; its properties are stated by `Combinators.CastTo`. |
| `Numerals.ParseInt` | mercapi/mapping/definitions.py:50-52 | Definition of `int(s, base)` on a str, as `get_as(key, int)` applies it, stripping the ASCII whitespace `int` strips (including the separators 0x1c to 0x1f); its properties are stated by `PyData.ToInt`, `PyData.IntOfStr` and `ItemData.RgbCodeRoundTrip`. |
| `PyData.DictGet` | mercapi/mapping/definitions.py:44-46 | `x.get(key)`: succeeds exactly on a dict, giving the stored value or `None`. Anything else raises `AttributeError`. |
| `PyData.Contains` | mercapi/mapping/definitions.py:50-52 | `key in x`: on a dict it is key membership. It raises `TypeError` exactly when `x` is neither a dict, a list nor a str. |
| `PyData.Subscript` | mercapi/mapping/definitions.py:50-52 | `x[key]` succeeds exactly when `x` is a dict holding the key, and gives the stored value. |
| `PyData.Iterate` | mercapi/mapping/definitions.py:68-70 | `for i in x`: a list gives its items, a str one element per character, a dict one per key. Anything else raises. The elements are nested no deeper than `x`. |
| `PyData.ToInt` | mercapi/mapping/definitions.py:50-52 | `int(x)` fails only with `TypeError` or `ValueError`. It is `TypeError` exactly for `None`, a list or a dict. |
| `PyData.IntOfStr` | mercapi/mapping/definitions.py:50-52 | `int(str(i)) == i` for every int (within the conversion limit named under Left out). |
| `Combinators.CastTo` | mercapi/mapping/definitions.py:50-52 | Only `int(...)` can raise, and only an ordinary `Exception`. `int` of an int is itself. `str(...)` always gives a str (within the conversion limit named under Left out). |
| `Combinators.TimestampNeverNone` | mercapi/mapping/definitions.py:78-80 | A converted timestamp is a `datetime`, never `None`. A failed conversion raises an ordinary `Exception`. |
| `Combinators.Guarded` | mercapi/mapping/definitions.py:64-66 | The `x[key] if key in x else None` guard. On a dict it gives the stored value iff the key is present. It raises only `TypeError`, and always does on `None`, a bool or an int. |
| `Combinators.Get` | mercapi/mapping/definitions.py:44-46 | `get` never raises on a dict. It is `None` iff the key is absent or holds null. A present key gives its value. A non-dict raises `AttributeError`. |
| `Combinators.GetAs` | mercapi/mapping/definitions.py:50-52 | `get_as`: `None` for an absent key, otherwise the cast of the value. It raises only `Exception`s, and `int` of a present null raises `TypeError`. |
| `Combinators.GetWith` | mercapi/mapping/definitions.py:64-66 | `get_with` calls the mapper once, on `x[key]`, when the key is present, and gives `None` when a dict lacks it. If the mapper raises only `Exception`s, so does `get_with`. |
| `Combinators.MapList` | mercapi/mapping/definitions.py:68-70 | The comprehension succeeds iff the mapper succeeds on every element. The result keeps the length and has element i equal to the mapper's result on element i. On failure, the error is that of the first failing element. |
| `Combinators.GetListWith` | mercapi/mapping/definitions.py:68-70 | `get_list_with` gives `None` for an absent key. Otherwise it gives a list of the same length, in the same order, with each element the mapper's result. A present non-iterable raises `TypeError`. A present key never gives `None`. A failed list raises the error of its first element the mapper cannot map, unchanged. |
| `Mapping.GetDatetime` | mercapi/mapping/definitions.py:78-80 | Definition of `get_datetime` as `get_with` over the timestamp hook; its properties are stated by `Combinators.TimestampNeverNone` and `Mapping.GetDatetimeAbsent`. |
| `Mapping.Extract` | mercapi/mapping/definitions.py:36-80 | Definition of running one extractor on a response; its properties are stated by `Mapping.ExtractAbsent`, `Mapping.GetAsModelMaps` and `Mapping.GetListOfModelMaps`. |
| `Mapping.Resolve` | mercapi/mapping/definitions.py:242-245 | Definition of choosing the passed definition, else the registered one; its properties are stated by `Mapping.MapToClassErrors`. |
| `Mapping.Construct` | mercapi/mapping/definitions.py:268 | Definition of `clazz(**init_properties)`; its properties are stated by `Mapping.MapToClassSpec`. |
| `Mapping.MapToClass` | mercapi/mapping/definitions.py:232-268 | Definition of `map_to_class`; its properties are stated by `Mapping.MapToClassErrors` and `Mapping.MapToClassSpec`, and `Mapping.MapToClassRun` proves the source's loops compute it. |
| `Mapping.RunRequired` | mercapi/mapping/definitions.py:249-258 | Definition of the required-property loop; its properties are stated by `Mapping.RunRequiredSpec`, and `Mapping.RequiredLoop` proves the loop computes it. |
| `Mapping.RunOptional` | mercapi/mapping/definitions.py:260-266 | Definition of the optional-property loop; its properties are stated by `Mapping.RunOptionalSpec`, and `Mapping.OptionalLoop` proves the loop computes it. |
| `Mapping.OptionalWarnings` | mercapi/mapping/definitions.py:260-275 | Definition of the raw names the optional loop warns about; `Mapping.OptionalLoop` proves the loop reports exactly them. |
| `Mapping.MapToClassRun` | mercapi/mapping/definitions.py:232-268 | The two loops compute `MapToClass`, and report the warnings `Warnings` lists. |
| `Mapping.RequiredLoop` | mercapi/mapping/definitions.py:249-258 | The required loop over the rows computes `RunRequired` from an empty keyword dict. |
| `Mapping.OptionalLoop` | mercapi/mapping/definitions.py:260-266 | The optional loop computes `RunOptional`. It warns for exactly the rows `OptionalWarnings` lists. |
| `Mapping.RunRequiredSpec` | mercapi/mapping/definitions.py:249-258 | The required loop succeeds iff every row gives a value that is not `None`. Falsy values count as usable. On success it binds every row's name (the last row wins) and keeps earlier bindings. Otherwise the first unusable row decides the error: a `ParseAPIResponseError` naming the class and the raw property, or a non-`Exception` passed through unchanged. |
| `Mapping.RunOptionalSpec` | mercapi/mapping/definitions.py:260-266 | The optional loop succeeds iff no row raises a non-`Exception`. A raised `Exception` binds `None`, and any other result, `None` included, is bound unchanged. Otherwise the first escaping error propagates. |
| `Mapping.MapToClassErrors` | mercapi/mapping/definitions.py:237-245 | `ResponseModel` raises `TypeError` first. The missing-definition `ValueError` is raised iff no definition is passed and none is registered. No other ordinary `Exception` leaves `map_to_class` except the constructor's `TypeError`. |
| `Mapping.MapToClassSpec` | mercapi/mapping/definitions.py:247-268 | `map_to_class` succeeds iff every required row is usable, no optional row escapes, and the rows name exactly the class's fields. The instance then binds each field to its row's result, with optional rows after required ones. |
| `Mapping.RequiredFailure` | mercapi/mapping/definitions.py:249-258 | The first unusable required row decides the error, and no instance is constructed. |
| `Mapping.OptionalEscape` | mercapi/mapping/definitions.py:260-266 | An optional row that raises a non-`Exception` (after usable required rows and non-escaping earlier optional rows) makes `map_to_class` raise exactly that error. |
| `Mapping.ExtractAbsent` | mercapi/mapping/definitions.py:36-76 | Every extractor gives `None` for a key the dict lacks. |
| `Mapping.GetAsModelMaps` | mercapi/mapping/definitions.py:56-62 | `get_as_model` maps the sub-object through `map_to_class`, with the given definition or else the registered one. |
| `Mapping.GetListOfModelMaps` | mercapi/mapping/definitions.py:72-76 | `get_list_of_model` gives one mapped model per element, in order. It succeeds when every element maps. A present key never gives `None`. On failure the error is that of the first element `map_to_class` cannot map, unchanged. |
| `Mapping.GetDatetimeAbsent` | mercapi/mapping/definitions.py:78-80 | On a dict, `get_datetime` is `None` exactly when the key is absent. |
| `Mapping.NestedFailureEscapesOptional` | mercapi/mapping/definitions.py:260-266 | A nested `ParseAPIResponseError` raised inside an optional `get_as_model` is not swallowed: the outer call fails with it. |
| `Mapping.NestedFailurePropagatesFromRequired` | mercapi/mapping/definitions.py:249-258 | Inside a required row, the nested `ParseAPIResponseError` propagates without being re-wrapped. |
| `Mapping.ListFailureIsFirstElement` | mercapi/mapping/definitions.py:72-76 | A failing `get_list_of_model` row raises exactly the error of its first element that `map_to_class` cannot map. |
| `Mapping.NestedListFailureEscapesOptional` | mercapi/mapping/definitions.py:260-266 | An optional `get_list_of_model` row whose first failing element raises `ParseAPIResponseError` makes `map_to_class` fail with that error; `except Exception` does not catch it. |
| `Mapping.NestedListFailurePropagatesFromRequired` | mercapi/mapping/definitions.py:249-258 | Inside a required `get_list_of_model` row, the first failing element's `ParseAPIResponseError` propagates without being re-wrapped. |
| `Mapping.UndefinedModelGivesNone` | mercapi/mapping/definitions.py:56-62 | A `get_as_model` of a class without a definition never escapes and binds `None` in an optional row. |
| `Registry.ItemRequiredRows` | mercapi/mapping/definitions.py:95-100 | The `Item` required rows are `id`→`id_`, `status`, `name` and `price`, each a plain `get`. |
| `Registry.ItemFieldsCovered` | mercapi/mapping/definitions.py:93-227 | The names the `Item` rows bind are exactly the 39 fields of the `Item` dataclass. |
| `Registry.ItemNamesDistinct` | mercapi/mapping/definitions.py:101-225 | No name is bound twice: required and optional names are disjoint, and each row is the only one binding its name. |
| `Registry.ContainedNeverEscapes` | mercapi/mapping/definitions.py:260-266 | Nothing escapes from a row that is a `get`, a `get_datetime`, a `get_list_with` of `from_dict` (when `from_dict` raises only `Exception`s), or a `get_as_model` of an unregistered class. The last kind always binds `None`. |
| `Registry.ItemOptionalContained` | mercapi/mapping/definitions.py:101-225 | Every optional `Item` row is of a kind that cannot escape. |
| `Registry.ItemNestedRows` | mercapi/mapping/definitions.py:102-152 | `seller`, `item_category`, `item_condition` and the five `shipping_*` fields are bound by `get_as_model` rows. |
| `Registry.ContainedDefinitionMapping` | mercapi/mapping/definitions.py:247-268 | A registered definition shaped like the `Item` one maps a response iff it is a dict holding every required key with a non-null value. The instance holds the required values, `get` values and `None` for nested models. |
| `Registry.ItemMapping` | mercapi/mapping/definitions.py:93-227 | An `Item` maps iff the response is a dict with `id`, `status`, `name` and `price` present and not null. The instance binds those four, `response.get(key)` for every optional `get`, and `None` for every `get_as_model`. |
| `Registry.ItemMissingRequired` | mercapi/mapping/definitions.py:249-258 | A missing or null required `Item` key raises `ParseAPIResponseError("Item", key)` for the first such key. |
| `Registry.FromDictListRow` | mercapi/mapping/definitions.py:123-127 | Without `from_dict`, a `get_list_with(..., from_dict)` row never escapes. It binds an empty list for a value with no elements, and `None` otherwise. |
| `Registry.ItemListsWithoutFromDict` | mercapi/mapping/definitions.py:123-161 | Without `from_dict`, a mapped `Item` has `colors` and `comments` set to `None` unless the response holds an empty list there. |
| `MappingScenarios.FullObject` | tests/mapping/test_map_to_class.py:84-92 | `{field1: "foo", field2: "bar"}` maps to `ModelTest("foo", "bar")`. |
| `MappingScenarios.ObjectWithoutOptionals` | tests/mapping/test_map_to_class.py:95-102 | Without `field2`, the optional field is `None`. |
| `MappingScenarios.ObjectWithoutRequired` | tests/mapping/test_map_to_class.py:105-110 | Without `field1`, the call raises `ParseAPIResponseError("ModelTest", "field1")`. |
| `MappingScenarios.NestedObject` | tests/mapping/test_map_to_class.py:113-133 | A nested object maps with the registered definition of its class. |
| `MappingScenarios.ListOfPrimitives` | tests/mapping/test_map_to_class.py:136-139 | A list of ints is bound as it is. |
| `MappingScenarios.ListOfNestedObjects` | tests/mapping/test_map_to_class.py:142-163 | A list of objects maps element by element to `ModelTest` instances. |
| `LegacyBase.Extract` | mercapi/models/base.py:36-78 | Definition of running one older extractor; its properties are stated by the `LegacyBase` lemmas below. |
| `LegacyBase.AbsentKeyGivesNone` | mercapi/models/base.py:36-78 | Every older extractor gives `None` when the dict lacks its key, as the class documents. |
| `LegacyBase.SharedExtractorsAgree` | mercapi/models/base.py:44-68 | `get`, `get_as`, `get_with` and `get_list_with` behave exactly as their counterparts in `mapping/definitions.py`. |
| `LegacyBase.ModelExtractorsDiffer` | mercapi/models/base.py:56-60 | With the key present, the older `get_as_model` is `model.from_dict(x[key])`, where the newer one is `map_to_class(x[key], model)`. |
| `LegacyBase.MissingFromDictRaises` | mercapi/models/base.py:70-74 | When `from_dict` is missing, the older `get_as_model` raises `AttributeError` on a present key. The older `get_list_of_model` raises it unless the value has no elements, in which case it gives `[]`. |
| `LegacyBase.GetDatetimePresent` | mercapi/models/base.py:76-78 | On a present key, `get_datetime` gives a `datetime` or raises an ordinary `Exception`, never `None`. |
| `SearchRequest.ArgName` | mercapi/requests/search.py:89-90 | `sort_by.name` and `sort_order.name` succeed exactly for an enum member, giving its name. A bare int raises `AttributeError`. |
| `SearchRequest.DefaultConditions` | mercapi/requests/search.py:34-51 | The declared defaults are: empty lists, zero prices, an empty exclusion, and bare ints for `sort_by` and `sort_order`. |
| `SearchRequest.IntendedDefaultConditions` | mercapi/requests/search.py:49-50 | The same defaults, with the members `SORT_SCORE` and `ORDER_DESC` in place of the ints. |
| `SearchRequest.AllowedSortingShape` | mercapi/requests/search.py:56-62 | A pair is whitelisted iff both are members and either the order is descending or the sort is by price. |
| `SearchRequest.SearchRequestData.constructor` | mercapi/requests/search.py:53-54 | The constructor takes the conditions, with `page_token` defaulting to `""`. |
| `SearchRequest.SearchRequestData.Copy` | mercapi/models/search/search_results.py:22 | `copy(request)` is a fresh object with the same field values. |
| `SearchRequest.PayloadOf` | mercapi/requests/search.py:64-111 | Definition of the payload `data` returns; its properties are stated by `SearchRequest.PayloadErrors`, `SearchRequest.PayloadContents` and `SearchRequest.StatusExpansion`. |
| `SearchRequest.SearchRequestData.Data` | mercapi/requests/search.py:64-111 | `data` warns iff the sort pair is not whitelisted, and returns `PayloadOf` of the conditions, page token and session id. |
| `SearchRequest.StatusExpansion` | mercapi/requests/search.py:67-69 | The status list is the member names in input order. Exactly one `"STATUS_TRADING"` follows, at the end, iff `STATUS_SOLD_OUT` was asked for. |
| `SearchRequest.NamesOfStatuses` | mercapi/requests/search.py:19-22 | No status member is named `"STATUS_TRADING"`. `"STATUS_SOLD_OUT"` names only the sold-out member. |
| `SearchRequest.ShippingMethodOrder` | mercapi/requests/search.py:66 | `shippingMethod` is the member names, same length, same order. |
| `SearchRequest.PayloadErrors` | mercapi/requests/search.py:89-90 | `data` raises exactly when `sort_by` or `sort_order` is not a member, and then raises `AttributeError`. |
| `SearchRequest.UnlistedSortingStillSent` | mercapi/requests/search.py:71-90 | A pair outside the whitelist only warns. With members, the payload is produced and carries their names. |
| `SearchRequest.PayloadContents` | mercapi/requests/search.py:64-111 | The payload carries the page token, the session id and the conditions unchanged. `sort` and `order` are the members' names. `shippingMethod` is the shipping-method names in input order. `status` is the status names in input order, then `"STATUS_TRADING"` exactly when sold-out items are asked for. Every other field holds its constant: `pageSize` 120, `userId` `""`, `serviceFrom` `"suruga"`, no coupon, and empty lists. |
| `SearchRequest.DefaultConditionsRaise` | mercapi/requests/search.py:49-90 | With the declared defaults, the pair is not whitelisted and `data` raises `AttributeError`. |
| `SearchRequest.IntendedDefaultsAccepted` | mercapi/requests/search.py:49-62 | With the intended defaults, the pair is whitelisted and the payload asks for `SORT_SCORE`, `ORDER_DESC`. |
| `SearchResultsPage.SearchResults.constructor` | mercapi/models/search/search_results.py:11-15 | `__init__` takes `meta` and `items`. `_request` is left unset. |
| `SearchResultsPage.SearchResults.NextPage` | mercapi/models/search/search_results.py:17-24 | It raises `IncorrectRequestError` iff the next-page token is empty, checked first. Otherwise the request to send is a fresh copy of `_request` with only `page_token` replaced. The original request is unchanged. |
| `SearchResultsPage.SearchResults.PrevPage` | mercapi/models/search/search_results.py:26-33 | The same for the previous-page token. |
| `SearchResultsPage.SearchResults.PageRequest` | mercapi/models/search/search_results.py:18-23 | The shared guard and copy. An unset `_request` raises `AttributeError` after the guard. |
| `SearchResultsPage.SearchResults.Equals` | mercapi/models/search/search_results.py:11-15 | Definition of dataclass equality without `_request`; its properties are stated by `SearchResultsPage.EqualityIgnoresRequest`. |
| `SearchResultsPage.EqualityIgnoresRequest` | mercapi/models/search/search_results.py:15 | Equality ignores `_request` and is an equivalence. |
| `Numerals.HexString` | mercapi/models/item/data.py:43-45 | Definition of `hex(i)`; its properties are stated by `ItemData.RgbCodeDigits`, `ItemData.NegativeRgbCode` and `ItemData.RgbCodeRoundTrip`. |
| `ItemData.Color.RgbCode` | mercapi/models/item/data.py:43-45 | `hex(rgb)` starts with `0x`, or with `-0x` for a negative value. `0` prints as `0x0`. |
| `ItemData.RgbCodeDigits` | mercapi/models/item/data.py:45 | After the prefix come lower-case hex digits, at least one. The first is `0` only for the value `0`. |
| `ItemData.NegativeRgbCode` | mercapi/models/item/data.py:45 | A negative value prints as `-` followed by `hex` of its absolute value. |
| `ItemData.RgbCodeRoundTrip` | mercapi/models/item/data.py:45 | `int(rgb_code, 16) == rgb`. |
| `ItemData.RgbCodeInjective` | mercapi/models/item/data.py:45 | Two colours have the same `rgb_code` iff they have the same value. |

## Left out

- HTTP transport, the DPoP JWT signing and the async search call (`_mercapi._search_impl`) are not modelled. `mercapi/mercapi.py` and `mercapi/util/jwt.py` are not part of this model. `NextPage`/`PrevPage` return the request they would send.
- `datetime.fromtimestamp(float(x))` (floats, the local time zone) and `from_dict` are the `Hooks` parameter. The lemmas about the shipped registry assume only that `from_dict` raises ordinary `Exception`s. Where they assume it is missing altogether, they say so.
- `Extractors.__import_class` (import by dotted name) is not modelled. Nested model classes are given directly.
- Logging is not modelled. The warnings are returned as a list of raw property names (`MapToClassRun`) or a flag (`Data`); the debug dump of the response is left out.
- `uuid.uuid4().hex` is the `sessionId` parameter of `Data`.
- `ResponseModel.set_mercapi` and the companion fetches of the other models are not modelled.
- JSON numbers are ints only: floats, and `get_as` with `float`, are not modelled.
- ToStr: has no integer-string conversion limit. CPython 3.11 and later, and the security releases of 3.7 to 3.10, raise `ValueError` from `str(i)` for an int of more than 4300 decimal digits. `ToStr` always gives the digits.
- ParseInt: reads decimal strings of any length. Under that limit CPython raises `ValueError` for more than 4300 decimal digits. Base 16 is a power of two and is not limited, so `RgbCodeRoundTrip` is unaffected.
- IntOfStr: states `int(str(i)) == i` for every int. Under the conversion limit this holds only for ints of at most 4300 decimal digits, because `str(i)` raises `ValueError` beyond that.
- CastTo: states that `str(...)` always gives a str. Under the conversion limit, `str` of an int of more than 4300 decimal digits raises `ValueError`, an ordinary `Exception`.
- `int(s)` reads ASCII digits, single underscores, a sign and ASCII whitespace. `repr` escapes only ASCII control characters. Unicode digits, whitespace and escapes beyond ASCII are not modelled.
- `SearchConditions.shipping_methods` and `status` hold enum members only: a bare int in those lists, which makes `data` raise `AttributeError` at `mercapi/requests/search.py:66-67`, is not representable, so `PayloadErrors` covers only `sort_by` and `sort_order`.
- The plain record dataclasses are only a class name and the list of their fields (`ModelClass`). The constructor checks that the keywords are exactly those fields, not their types, as Python does.
- `SearchConditions` and the payload are values: the payload is a record whose field names are the dict's keys. Its JSON serialisation is not modelled. The shallow copy in `next_page` shares the conditions object. That sharing is represented by equal values, so a later mutation through one of the two requests is not captured.

## Findings

| source | as written | input that shows it | evidently intended | confidence | as-written member | corrected member |
|---|---|---|---|---|---|---|
| mercapi/requests/search.py:49-50 | `sort_by` and `sort_order` default to the bare int `1`, which has no `.name` and equals no enum member | `SearchRequestData(SearchConditions("q")).data` raises `AttributeError` at line 89, after warning that the pair is unsupported | default to `SortBy.SORT_SCORE` and `SortOrder.ORDER_DESC`, the members whose value is `1` | not executed; high | `SearchRequest.DefaultConditionsRaise` | `SearchRequest.IntendedDefaultsAccepted` |
