/**
 * `SearchRequestData` of `mercapi/requests/search.py`: the search conditions a caller
 * fills in, and the `data` property that turns them into the body of the search call.
 */
module SearchRequest {
  import opened Wrappers
  import opened PyData

  datatype ShippingMethod = ShippingMethodAnonymous | ShippingMethodJapanPost | ShippingMethodNoOption
  {
    /** The member's `.name`. */
    function Name(): string
    {
      match this
      case ShippingMethodAnonymous => "SHIPPING_METHOD_ANONYMOUS"
      case ShippingMethodJapanPost => "SHIPPING_METHOD_JAPAN_POST"
      case ShippingMethodNoOption => "SHIPPING_METHOD_NO_OPTION"
    }
  }

  /** The selectable statuses; trading (value 3) is not a member. */
  datatype Status = StatusOnSale | StatusSoldOut
  {
    function Name(): string
    {
      match this
      case StatusOnSale => "STATUS_ON_SALE"
      case StatusSoldOut => "STATUS_SOLD_OUT"
    }
  }

  datatype SortBy = SortScore | SortCreatedTime | SortPrice | SortNumLikes
  {
    function Name(): string
    {
      match this
      case SortScore => "SORT_SCORE"
      case SortCreatedTime => "SORT_CREATED_TIME"
      case SortPrice => "SORT_PRICE"
      case SortNumLikes => "SORT_NUM_LIKES"
    }
  }

  datatype SortOrder = OrderDesc | OrderAsc
  {
    function Name(): string
    {
      match this
      case OrderDesc => "ORDER_DESC"
      case OrderAsc => "ORDER_ASC"
    }
  }

  /**
   * What a field annotated with an enum holds: a member, or a bare int such as the
   * declared defaults of `sort_by` and `sort_order`. A plain `Enum` member is never
   * equal to an int, and an int has no `.name`.
   */
  datatype EnumArg<E> = Enum(member: E) | Bare(i: int)

  /** `a.name`, where `name` gives each member's name: a bare int has none. */
  function ArgName<E>(a: EnumArg<E>, name: E -> string): (r: Outcome<string>)
    ensures r.Ok? <==> a.Enum?
    ensures r.Ok? ==> r.value == name(a.member)
    ensures r.Err? ==> r.error == Exception(AttributeError)
  {
    match a
    case Enum(m) => Ok(name(m))
    case Bare(_) => Err(Exception(AttributeError))
  }

  const SortByName: SortBy -> string := (s: SortBy) => s.Name()
  const SortOrderName: SortOrder -> string := (o: SortOrder) => o.Name()

  /** `SearchRequestData.SearchConditions`. */
  datatype SearchConditions = SearchConditions(
    query: string,
    categories: seq<int>,
    brands: seq<int>,
    sizes: seq<int>,
    priceMin: int,
    priceMax: int,
    itemConditions: seq<int>,
    shippingPayer: seq<int>,
    colors: seq<int>,
    shippingMethods: seq<ShippingMethod>,
    status: seq<Status>,
    sortBy: EnumArg<SortBy>,
    sortOrder: EnumArg<SortOrder>,
    exclude: string)

  /**
   * `SearchConditions(query)` with the declared defaults: empty lists, zero prices, an
   * empty exclusion, and the bare int `1` for both `sort_by` and `sort_order`.
   */
  function DefaultConditions(query: string): (c: SearchConditions)
    ensures c.query == query && c.exclude == "" && c.priceMin == 0 && c.priceMax == 0
    ensures c.categories == c.brands == c.sizes == c.itemConditions == c.shippingPayer == c.colors == []
    ensures c.shippingMethods == [] && c.status == []
    ensures c.sortBy.Bare? && c.sortOrder.Bare?
  {
    SearchConditions(query, [], [], [], 0, 0, [], [], [], [], [], Bare(1), Bare(1), "")
  }

  /** The defaults as the annotations mean them: the members whose value is `1`. */
  function IntendedDefaultConditions(query: string): (c: SearchConditions)
    ensures c == DefaultConditions(query).(sortBy := Enum(SortScore), sortOrder := Enum(OrderDesc))
  {
    SearchConditions(query, [], [], [], 0, 0, [], [], [], [], [], Enum(SortScore), Enum(OrderDesc), "")
  }

  /** `_allowed_sorting`: the pairs the official web app offers. */
  const AllowedSorting: seq<(EnumArg<SortBy>, EnumArg<SortOrder>)> := [
    (Enum(SortScore), Enum(OrderDesc)),
    (Enum(SortCreatedTime), Enum(OrderDesc)),
    (Enum(SortPrice), Enum(OrderDesc)),
    (Enum(SortPrice), Enum(OrderAsc)),
    (Enum(SortNumLikes), Enum(OrderDesc))]

  /** A pair is offered exactly when both are members and the order is descending, or the sort is by price. */
  lemma AllowedSortingShape(sort: EnumArg<SortBy>, order: EnumArg<SortOrder>)
    ensures (sort, order) in AllowedSorting <==>
      sort.Enum? && order.Enum? && (order.member == OrderDesc || sort.member == SortPrice)
  {
    if sort.Enum? && order.Enum? && (order.member == OrderDesc || sort.member == SortPrice) {
      match sort.member
      case SortScore => assert AllowedSorting[0] == (sort, order);
      case SortCreatedTime => assert AllowedSorting[1] == (sort, order);
      case SortPrice =>
        if order.member == OrderDesc {
          assert AllowedSorting[2] == (sort, order);
        } else {
          assert AllowedSorting[3] == (sort, order);
        }
      case SortNumLikes => assert AllowedSorting[4] == (sort, order);
    }
  }

  /** The `searchCondition` member of the payload; each field is named as its key. */
  datatype SearchCondition = SearchCondition(
    keyword: string,
    sort: string,
    order: string,
    status: seq<string>,
    sizeId: seq<int>,
    categoryId: seq<int>,
    brandId: seq<int>,
    sellerId: seq<int>,
    priceMin: int,
    priceMax: int,
    itemConditionId: seq<int>,
    shippingPayerId: seq<int>,
    shippingFromArea: seq<int>,
    shippingMethod: seq<string>,
    colorId: seq<int>,
    hasCoupon: bool,
    attributes: seq<string>,
    itemTypes: seq<string>,
    skuIds: seq<string>,
    excludeKeyword: string)

  /** The dict `data` returns; each field is named as its key. */
  datatype Payload = Payload(
    userId: string,
    pageSize: int,
    pageToken: string,
    searchSessionId: string,
    indexRouting: string,
    thumbnailTypes: seq<string>,
    searchCondition: SearchCondition,
    defaultDatasets: seq<string>,
    serviceFrom: string)

  /** `[i.name for i in shipping_methods]`. */
  function ShippingMethodNames(ms: seq<ShippingMethod>): seq<string>
  {
    seq(|ms|, i requires 0 <= i < |ms| => ms[i].Name())
  }

  /** `[i.name for i in status]`. */
  function StatusNames(ss: seq<Status>): seq<string>
  {
    seq(|ss|, i requires 0 <= i < |ss| => ss[i].Name())
  }

  /** The `status` list after `"STATUS_TRADING"` is appended when sold-out items are asked for. */
  function StatusField(ss: seq<Status>): seq<string>
  {
    var names := StatusNames(ss);
    if "STATUS_SOLD_OUT" in names then names + ["STATUS_TRADING"] else names
  }

  /**
   * The specification of `data`: the payload, or the `AttributeError` raised when
   * `sort_by` or `sort_order` is not an enum member. The session id, a fresh
   * `uuid4().hex` in the source, is a parameter.
   */
  function PayloadOf(c: SearchConditions, pageToken: string, sessionId: string): Outcome<Payload>
  {
    match ArgName(c.sortBy, SortByName)
    case Err(e) => Err(e)
    case Ok(sort) =>
      match ArgName(c.sortOrder, SortOrderName)
      case Err(e) => Err(e)
      case Ok(order) =>
        Ok(Payload(
          userId := "",
          pageSize := 120,
          pageToken := pageToken,
          searchSessionId := sessionId,
          indexRouting := "INDEX_ROUTING_UNSPECIFIED",
          thumbnailTypes := [],
          searchCondition := SearchCondition(
            keyword := c.query,
            sort := sort,
            order := order,
            status := StatusField(c.status),
            sizeId := c.sizes,
            categoryId := c.categories,
            brandId := c.brands,
            sellerId := [],
            priceMin := c.priceMin,
            priceMax := c.priceMax,
            itemConditionId := c.itemConditions,
            shippingPayerId := c.shippingPayer,
            shippingFromArea := [],
            shippingMethod := ShippingMethodNames(c.shippingMethods),
            colorId := c.colors,
            hasCoupon := false,
            attributes := [],
            itemTypes := [],
            skuIds := [],
            excludeKeyword := c.exclude),
          defaultDatasets := [],
          serviceFrom := "suruga"))
  }

  /** `SearchRequestData`: the conditions and the page token, which pagination overwrites on a copy. */
  class SearchRequestData {
    var searchConditions: SearchConditions
    var pageToken: string

    /** `SearchRequestData(search_conditions, page_token="")`. */
    constructor (searchConditions: SearchConditions, pageToken: string := "")
      ensures this.searchConditions == searchConditions && this.pageToken == pageToken
    {
      this.searchConditions := searchConditions;
      this.pageToken := pageToken;
    }

    /** `copy(self)`: a new object holding the same field values. */
    method Copy() returns (r: SearchRequestData)
      ensures fresh(r)
      ensures r.searchConditions == searchConditions && r.pageToken == pageToken
    {
      r := new SearchRequestData(searchConditions, pageToken);
    }

    /**
     * The `data` property: the payload for `sessionId`, and whether the sort pair is
     * outside `_allowed_sorting` (the warning, which does not stop the payload).
     */
    method Data(sessionId: string) returns (warned: bool, r: Outcome<Payload>)
      ensures warned <==> (searchConditions.sortBy, searchConditions.sortOrder) !in AllowedSorting
      ensures r == PayloadOf(searchConditions, pageToken, sessionId)
    {
      var c := searchConditions;
      var shippingMethods: seq<string> := [];
      for i := 0 to |c.shippingMethods|
        invariant shippingMethods == ShippingMethodNames(c.shippingMethods[..i])
      {
        shippingMethods := shippingMethods + [c.shippingMethods[i].Name()];
      }
      assert c.shippingMethods[..|c.shippingMethods|] == c.shippingMethods;
      var status: seq<string> := [];
      for i := 0 to |c.status|
        invariant status == StatusNames(c.status[..i])
      {
        status := status + [c.status[i].Name()];
      }
      assert c.status[..|c.status|] == c.status;
      if "STATUS_SOLD_OUT" in status {
        status := status + ["STATUS_TRADING"];
      }
      warned := (c.sortBy, c.sortOrder) !in AllowedSorting;
      var sort := ArgName(c.sortBy, SortByName);
      if sort.Err? {
        return warned, Err(sort.error);
      }
      var order := ArgName(c.sortOrder, SortOrderName);
      if order.Err? {
        return warned, Err(order.error);
      }
      r := Ok(Payload(
        userId := "",
        pageSize := 120,
        pageToken := pageToken,
        searchSessionId := sessionId,
        indexRouting := "INDEX_ROUTING_UNSPECIFIED",
        thumbnailTypes := [],
        searchCondition := SearchCondition(
          keyword := c.query,
          sort := sort.value,
          order := order.value,
          status := status,
          sizeId := c.sizes,
          categoryId := c.categories,
          brandId := c.brands,
          sellerId := [],
          priceMin := c.priceMin,
          priceMax := c.priceMax,
          itemConditionId := c.itemConditions,
          shippingPayerId := c.shippingPayer,
          shippingFromArea := [],
          shippingMethod := shippingMethods,
          colorId := c.colors,
          hasCoupon := false,
          attributes := [],
          itemTypes := [],
          skuIds := [],
          excludeKeyword := c.exclude),
        defaultDatasets := [],
        serviceFrom := "suruga"));
    }
  }

  /**
   * The status list is the member names in input order, followed by exactly one
   * `"STATUS_TRADING"` when, and only when, sold-out items were asked for.
   */
  lemma StatusExpansion(ss: seq<Status>)
    ensures var out := StatusField(ss);
      |out| == |ss| + (if StatusSoldOut in ss then 1 else 0)
      && (forall i :: 0 <= i < |ss| ==> out[i] == ss[i].Name())
      && (StatusSoldOut in ss ==> out[|ss|] == "STATUS_TRADING")
      && ("STATUS_TRADING" in out <==> StatusSoldOut in ss)
      && multiset(out)["STATUS_TRADING"] == (if StatusSoldOut in ss then 1 else 0)
  {
    var names := StatusNames(ss);
    NamesOfStatuses(ss);
    if StatusSoldOut in ss {
      var k :| 0 <= k < |ss| && ss[k] == StatusSoldOut;
      assert names[k] == "STATUS_SOLD_OUT";
      assert multiset(names + ["STATUS_TRADING"]) == multiset(names) + multiset{"STATUS_TRADING"};
    }
  }

  /** No member is named `"STATUS_TRADING"`, and `"STATUS_SOLD_OUT"` names only the sold-out member. */
  lemma NamesOfStatuses(ss: seq<Status>)
    ensures forall i :: 0 <= i < |ss| ==> StatusNames(ss)[i] == ss[i].Name()
    ensures "STATUS_TRADING" !in StatusNames(ss) && multiset(StatusNames(ss))["STATUS_TRADING"] == 0
    ensures "STATUS_SOLD_OUT" in StatusNames(ss) ==> StatusSoldOut in ss
  {
    var names := StatusNames(ss);
    forall i | 0 <= i < |names| ensures names[i] != "STATUS_TRADING" {
      assert names[i] == ss[i].Name();
    }
    if "STATUS_SOLD_OUT" in names {
      var k :| 0 <= k < |names| && names[k] == "STATUS_SOLD_OUT";
      assert ss[k] == StatusSoldOut;
    }
  }

  /** `shippingMethod` is the member names in input order. */
  lemma ShippingMethodOrder(ms: seq<ShippingMethod>)
    ensures |ShippingMethodNames(ms)| == |ms|
    ensures forall i :: 0 <= i < |ms| ==> ShippingMethodNames(ms)[i] == ms[i].Name()
  {
  }

  /** `data` raises exactly when `sort_by` or `sort_order` is not an enum member, and raises `AttributeError`. */
  lemma PayloadErrors(c: SearchConditions, pageToken: string, sessionId: string)
    ensures PayloadOf(c, pageToken, sessionId).Ok? <==> c.sortBy.Enum? && c.sortOrder.Enum?
    ensures PayloadOf(c, pageToken, sessionId).Err? ==>
      PayloadOf(c, pageToken, sessionId).error == Exception(AttributeError)
  {
  }

  /**
   * A pair outside `_allowed_sorting` only warns: with enum members the payload is
   * produced all the same, carrying the members' names.
   */
  lemma UnlistedSortingStillSent(c: SearchConditions, pageToken: string, sessionId: string)
    requires c.sortBy.Enum? && c.sortOrder.Enum?
    ensures PayloadOf(c, pageToken, sessionId).Ok?
    ensures PayloadOf(c, pageToken, sessionId).value.searchCondition.sort == c.sortBy.member.Name()
    ensures PayloadOf(c, pageToken, sessionId).value.searchCondition.order == c.sortOrder.member.Name()
  {
  }

  /**
   * A produced payload carries the page token, the session id and the conditions
   * unchanged, the names of the sort, the order, the statuses (expanded) and the
   * shipping methods, and the fixed values of every other field.
   */
  lemma PayloadContents(c: SearchConditions, pageToken: string, sessionId: string)
    requires PayloadOf(c, pageToken, sessionId).Ok?
    ensures var p := PayloadOf(c, pageToken, sessionId).value;
      p.pageToken == pageToken && p.searchSessionId == sessionId
      && p.userId == "" && p.pageSize == 120 && p.serviceFrom == "suruga"
      && p.indexRouting == "INDEX_ROUTING_UNSPECIFIED"
      && p.thumbnailTypes == [] && p.defaultDatasets == []
    ensures var s := PayloadOf(c, pageToken, sessionId).value.searchCondition;
      s.keyword == c.query && s.excludeKeyword == c.exclude
      && s.priceMin == c.priceMin && s.priceMax == c.priceMax
      && s.categoryId == c.categories && s.brandId == c.brands && s.sizeId == c.sizes
      && s.itemConditionId == c.itemConditions && s.shippingPayerId == c.shippingPayer && s.colorId == c.colors
      && !s.hasCoupon && s.sellerId == [] && s.shippingFromArea == []
      && s.attributes == [] && s.itemTypes == [] && s.skuIds == []
    ensures var s := PayloadOf(c, pageToken, sessionId).value.searchCondition;
      c.sortBy.Enum? && c.sortOrder.Enum?
      && s.sort == c.sortBy.member.Name() && s.order == c.sortOrder.member.Name()
    ensures var s := PayloadOf(c, pageToken, sessionId).value.searchCondition;
      |s.shippingMethod| == |c.shippingMethods|
      && forall i :: 0 <= i < |c.shippingMethods| ==> s.shippingMethod[i] == c.shippingMethods[i].Name()
    ensures var s := PayloadOf(c, pageToken, sessionId).value.searchCondition;
      |s.status| == |c.status| + (if StatusSoldOut in c.status then 1 else 0)
      && (forall i :: 0 <= i < |c.status| ==> s.status[i] == c.status[i].Name())
      && (StatusSoldOut in c.status ==> s.status[|c.status|] == "STATUS_TRADING")
  {
    StatusExpansion(c.status);
    ShippingMethodOrder(c.shippingMethods);
  }

  /**
   * As written, the declared defaults are bare ints: the pair is not offered (a
   * warning) and `data` raises `AttributeError` when it reads `sort_by.name`.
   */
  lemma DefaultConditionsRaise(query: string, pageToken: string, sessionId: string)
    ensures (DefaultConditions(query).sortBy, DefaultConditions(query).sortOrder) !in AllowedSorting
    ensures PayloadOf(DefaultConditions(query), pageToken, sessionId) == Err(Exception(AttributeError))
  {
    AllowedSortingShape(DefaultConditions(query).sortBy, DefaultConditions(query).sortOrder);
  }

  /** With the intended defaults the pair is offered and the payload asks for `SORT_SCORE`, `ORDER_DESC`. */
  lemma IntendedDefaultsAccepted(query: string, pageToken: string, sessionId: string)
    ensures var c := IntendedDefaultConditions(query);
      (c.sortBy, c.sortOrder) in AllowedSorting
      && PayloadOf(c, pageToken, sessionId).Ok?
      && PayloadOf(c, pageToken, sessionId).value.searchCondition.sort == "SORT_SCORE"
      && PayloadOf(c, pageToken, sessionId).value.searchCondition.order == "ORDER_DESC"
      && PayloadOf(c, pageToken, sessionId).value.searchCondition.status == []
  {
    var c := IntendedDefaultConditions(query);
    AllowedSortingShape(c.sortBy, c.sortOrder);
  }
}
