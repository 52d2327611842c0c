/** The data model: serving styles, dinner types, the static catalog, orders and customers. */
module Models {
  import opened Wrappers
  import opened Text
  import opened Values

  datatype ServingStyle = Simple | Grand | Deluxe {
    /** The enum member's value. */
    function Value(): string {
      match this
      case Simple => "simple"
      case Grand => "grand"
      case Deluxe => "deluxe"
    }
  }

  /** `ServingStyle(s)`: the member whose value is `s`; any other string raises `ValueError`. */
  function ServingStyleOf(s: string): (r: Option<ServingStyle>)
    ensures r.Some? ==> r.value.Value() == s
    ensures r.None? ==> forall st: ServingStyle :: st.Value() != s
  {
    if s == "simple" then Some(Simple)
    else if s == "grand" then Some(Grand)
    else if s == "deluxe" then Some(Deluxe)
    else None
  }

  /** There are exactly three serving styles, and each is found again from its value. */
  lemma ServingStyleValues(s: string, st: ServingStyle)
    ensures ServingStyleOf(s).Some? <==> s in ["simple", "grand", "deluxe"]
    ensures ServingStyleOf(st.Value()) == Some(st)
  {
  }

  datatype DinnerType = Valentine | French | English | Champagne {
    function Value(): string {
      match this
      case Valentine => "발렌타인 디너"
      case French => "프렌치 디너"
      case English => "잉글리시 디너"
      case Champagne => "샴페인 축제 디너"
    }
  }

  datatype Ingredient = Ingredient(name: string, quantity: int)

  /** A catalog entry; immutable once built. */
  datatype DinnerMenu = DinnerMenu(name: string, dinnerType: DinnerType, baseIngredients: seq<Ingredient>, description: string)

  /** The static catalog, keyed by display name. */
  const DinnerMenus: map<string, DinnerMenu> := map[
    "발렌타인 디너" := DinnerMenu(
      "발렌타인 디너", Valentine,
      [Ingredient("고기", 2), Ingredient("채소", 3), Ingredient("와인", 1), Ingredient("바케트빵", 3), Ingredient("계란", 4)],
      "로맨틱한 발렌타인데이를 위한 특별한 디너"),
    "프렌치 디너" := DinnerMenu(
      "프렌치 디너", French,
      [Ingredient("고기", 3), Ingredient("채소", 4), Ingredient("와인", 1), Ingredient("바케트빵", 3), Ingredient("계란", 3)],
      "정통 프랑스 요리 스타일의 고급 디너"),
    "잉글리시 디너" := DinnerMenu(
      "잉글리시 디너", English,
      [Ingredient("고기", 4), Ingredient("채소", 2), Ingredient("와인", 1), Ingredient("바케트빵", 3), Ingredient("계란", 2)],
      "영국 전통 스타일의 풍성한 디너"),
    "샴페인 축제 디너" := DinnerMenu(
      "샴페인 축제 디너", Champagne,
      [Ingredient("고기", 3), Ingredient("채소", 5), Ingredient("샴페인", 1), Ingredient("바케트빵", 3), Ingredient("계란", 4)],
      "특별한 축하를 위한 샴페인과 함께하는 디너")
  ]

  /**
    The catalog has one entry per dinner type: four keys, each the entry's display name and the value
    of its dinner type.
  */
  lemma CatalogConsistent(dt: DinnerType)
    ensures |DinnerMenus| == 4
    ensures forall k :: k in DinnerMenus ==> DinnerMenus[k].name == k && DinnerMenus[k].dinnerType.Value() == k
    ensures dt.Value() in DinnerMenus && DinnerMenus[dt.Value()].dinnerType == dt
  {
    assert DinnerMenus.Keys == {"발렌타인 디너", "프렌치 디너", "잉글리시 디너", "샴페인 축제 디너"};
  }

  /**
    A confirmed or pending order. Only `status` changes after construction. The counts and the
    delivery date hold whatever value the order was built with: nothing checks their types.
  */
  class Order {
    const orderId: string
    const customerName: string
    const dinnerMenu: DinnerMenu
    const servingStyle: ServingStyle
    const baguetteCount: Value
    const wineCount: Value
    const champagneCount: Value
    const deliveryDate: Value
    const createdAt: DateTime
    var status: string

    /**
      The dataclass constructor; a keyword argument left out (`None` here) takes its default:
      3 baguettes, no wine, no champagne, no delivery date, status "pending".
    */
    constructor (orderId: string, customerName: string, dinnerMenu: DinnerMenu, servingStyle: ServingStyle,
                 baguetteCount: Option<Value>, wineCount: Option<Value>, champagneCount: Option<Value>,
                 deliveryDate: Option<Value>, createdAt: DateTime, status: Option<string>)
      ensures this.orderId == orderId && this.customerName == customerName
      ensures this.dinnerMenu == dinnerMenu && this.servingStyle == servingStyle && this.createdAt == createdAt
      ensures this.baguetteCount == (if baguetteCount.Some? then baguetteCount.value else Int(3))
      ensures this.wineCount == (if wineCount.Some? then wineCount.value else Int(0))
      ensures this.champagneCount == (if champagneCount.Some? then champagneCount.value else Int(0))
      ensures this.deliveryDate == (if deliveryDate.Some? then deliveryDate.value else Null)
      ensures this.status == (if status.Some? then status.value else "pending")
    {
      this.orderId := orderId;
      this.customerName := customerName;
      this.dinnerMenu := dinnerMenu;
      this.servingStyle := servingStyle;
      this.baguetteCount := match baguetteCount case Some(v) => v case None => Int(3);
      this.wineCount := match wineCount case Some(v) => v case None => Int(0);
      this.champagneCount := match champagneCount case Some(v) => v case None => Int(0);
      this.deliveryDate := match deliveryDate case Some(v) => v case None => Null;
      this.createdAt := createdAt;
      this.status := match status case Some(s) => s case None => "pending";
    }

    /**
      `to_dict`: the API rendering. A falsy delivery date becomes `None`; a truthy one that is not a
      `datetime` has no `isoformat` and raises `AttributeError`.
    */
    function ToDict(fmt: DateFormats): (r: Result<seq<Entry>, PyError>)
      reads this
      ensures r.Err? <==> Truthy(deliveryDate) && !deliveryDate.Date?
      ensures r.Ok? ==> |r.value| == 11
      ensures r.Ok? ==> r.value[0] == Entry("order_id", Str(orderId)) && r.value[1] == Entry("customer_name", Str(customerName))
      ensures r.Ok? ==> r.value[2] == Entry("dinner_menu", Str(dinnerMenu.name))
      ensures r.Ok? ==> r.value[3] == Entry("dinner_type", Str(dinnerMenu.dinnerType.Value()))
      ensures r.Ok? ==> r.value[4] == Entry("serving_style", Str(servingStyle.Value()))
      ensures r.Ok? ==> r.value[5] == Entry("baguette_count", baguetteCount) && r.value[6] == Entry("wine_count", wineCount)
                        && r.value[7] == Entry("champagne_count", champagneCount)
      ensures r.Ok? ==> r.value[8] == Entry("delivery_date", if deliveryDate.Date? then Str(fmt.iso(deliveryDate.t)) else Null)
      ensures r.Ok? ==> r.value[9] == Entry("created_at", Str(fmt.iso(createdAt)))
      ensures r.Ok? ==> r.value[10] == Entry("status", Str(status))
    {
      var delivery :=
        if !Truthy(deliveryDate) then Ok(Null)
        else if deliveryDate.Date? then Ok(Str(fmt.iso(deliveryDate.t)))
        else Err(AttributeError);
      if delivery.Err? then Err(AttributeError)
      else
        var d := [
          Entry("order_id", Str(orderId)),
          Entry("customer_name", Str(customerName)),
          Entry("dinner_menu", Str(dinnerMenu.name)),
          Entry("dinner_type", Str(dinnerMenu.dinnerType.Value())),
          Entry("serving_style", Str(servingStyle.Value())),
          Entry("baguette_count", baguetteCount),
          Entry("wine_count", wineCount),
          Entry("champagne_count", champagneCount),
          Entry("delivery_date", delivery.value),
          Entry("created_at", Str(fmt.iso(createdAt))),
          Entry("status", Str(status))
        ];
        Ok(d)
    }

    /**
      `get_summary`, as its list of items: dinner, serving style and baguettes always, in that order;
      then wine and champagne only when their count is above zero. Comparing a count that is not a
      number with zero raises `TypeError`.
    */
    function SummaryItems(fmt: DateFormats): (r: Result<seq<string>, PyError>)
      reads this
      ensures r.Ok? <==> GreaterThanZero(wineCount).Ok? && GreaterThanZero(champagneCount).Ok?
      ensures r.Ok? ==> 3 <= |r.value| <= 5
      ensures r.Ok? ==> r.value[..3] == [
        "디너: " + dinnerMenu.name,
        "서빙: " + servingStyle.Value() + " 스타일",
        "바케트빵: " + Show(baguetteCount, fmt) + "개"]
      ensures r.Ok? ==>
        r.value[3..] == (if GreaterThanZero(wineCount).value then ["와인: " + Show(wineCount, fmt) + "병"] else [])
                        + (if GreaterThanZero(champagneCount).value then ["샴페인: " + Show(champagneCount, fmt) + "병"] else [])
    {
      var items := [
        "디너: " + dinnerMenu.name,
        "서빙: " + servingStyle.Value() + " 스타일",
        "바케트빵: " + Show(baguetteCount, fmt) + "개"];
      match GreaterThanZero(wineCount)
      case Err(e) => Err(e)
      case Ok(wine) =>
        var items := if wine then items + ["와인: " + Show(wineCount, fmt) + "병"] else items;
        match GreaterThanZero(champagneCount)
        case Err(e) => Err(e)
        case Ok(champagne) =>
          Ok(if champagne then items + ["샴페인: " + Show(champagneCount, fmt) + "병"] else items)
    }

    /** `get_summary`: the items joined with ", ". */
    function GetSummary(fmt: DateFormats): (r: Result<string, PyError>)
      reads this
      ensures r.Ok? <==> SummaryItems(fmt).Ok?
      ensures r.Ok? ==> r.value == Join(", ", SummaryItems(fmt).value)
    {
      match SummaryItems(fmt)
      case Ok(items) => Ok(Join(", ", items))
      case Err(e) => Err(e)
    }
  }

  /** A customer and the orders placed so far, oldest first. */
  class Customer {
    const name: string
    const customerId: Option<string>
    var orderHistory: seq<Order>

    constructor (name: string, customerId: Option<string>)
      ensures this.name == name && this.customerId == customerId && orderHistory == []
    {
      this.name := name;
      this.customerId := customerId;
      orderHistory := [];
    }

    /** `add_order`: appends one order at the end; earlier entries stay as they were. */
    method AddOrder(order: Order)
      modifies this
      ensures orderHistory == old(orderHistory) + [order]
    {
      orderHistory := orderHistory + [order];
    }
  }
}
