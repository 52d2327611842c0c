/**
  The order processor: turns the order data a conversation produced into a confirmed `Order`,
  stores it under its id, and keeps each customer's order history.
*/
module Orders {
  import opened Wrappers
  import opened Text
  import opened Values
  import opened Models

  /** What the order data decides about a new order, before ids and the clock are added. */
  datatype Draft = Draft(dinnerMenu: DinnerMenu, servingStyle: ServingStyle, baguetteCount: Value,
                         wineCount: Value, champagneCount: Value, deliveryDate: Value)

  /** The catalog entry named by `dinner_type`; anything that is not a catalog key finds none. */
  function MenuOf(data: Dict): (r: Option<DinnerMenu>)
    ensures r.Some? <==> Has(data, "dinner_type") && Get(data, "dinner_type").value.Str?
                         && Get(data, "dinner_type").value.s in DinnerMenus
    ensures r.Some? ==> r.value.name == Get(data, "dinner_type").value.s
                        && r.value.dinnerType.Value() == r.value.name
    ensures r.Some? ==> r.value == DinnerMenus[Get(data, "dinner_type").value.s]
  {
    match Get(data, "dinner_type")
    case Some(Str(k)) =>
      if k in DinnerMenus then
        CatalogConsistent(Valentine);
        Some(DinnerMenus[k])
      else None
    case _ => None
  }

  /**
    `ServingStyle(v.lower())`: a string is lowered and looked up, an unknown one falls back to
    `simple`; anything but a string has no `lower` and raises `AttributeError` (`None` here).
  */
  function StyleOf(v: Value): (r: Option<ServingStyle>)
    ensures r.Some? <==> v.Str?
    ensures r.Some? && ServingStyleOf(Lower(v.s)).Some? ==> r.value.Value() == Lower(v.s)
    ensures r.Some? && ServingStyleOf(Lower(v.s)).None? ==> r.value == Simple
  {
    match v
    case Str(s) =>
      (match ServingStyleOf(Lower(s))
       case Some(style) => Some(style)
       case None => Some(Simple))
    case _ => None
  }

  /**
    The order the data describes: the catalog dinner, the serving style (`simple` when absent),
    3 baguettes, no wine and no champagne unless given, and the delivery date if any.
  */
  function DraftOf(data: Dict): (r: Option<Draft>)
    ensures r.Some? <==> MenuOf(data).Some? && StyleOf(GetOr(data, "serving_style", Str("simple"))).Some?
    ensures r.Some? ==> r.value.dinnerMenu.name == Get(data, "dinner_type").value.s
    ensures r.Some? && !Has(data, "serving_style") ==> r.value.servingStyle == Simple
    ensures r.Some? ==> (Has(data, "baguette_count") || r.value.baguetteCount == Int(3))
                        && (Has(data, "wine_count") || r.value.wineCount == Int(0))
                        && (Has(data, "champagne_count") || r.value.champagneCount == Int(0))
                        && (Has(data, "delivery_date") || r.value.deliveryDate == Null)
    ensures r.Some? ==> r.value.dinnerMenu == MenuOf(data).value
    ensures r.Some? && Has(data, "serving_style") ==> Some(r.value.servingStyle) == StyleOf(Get(data, "serving_style").value)
    ensures r.Some? ==> (!Has(data, "baguette_count") || r.value.baguetteCount == Get(data, "baguette_count").value)
                        && (!Has(data, "wine_count") || r.value.wineCount == Get(data, "wine_count").value)
                        && (!Has(data, "champagne_count") || r.value.champagneCount == Get(data, "champagne_count").value)
                        && (!Has(data, "delivery_date") || r.value.deliveryDate == Get(data, "delivery_date").value)
  {
    match MenuOf(data)
    case None => None
    case Some(menu) =>
      match StyleOf(GetOr(data, "serving_style", Str("simple")))
      case None => None
      case Some(style) =>
        Some(Draft(menu, style, GetOr(data, "baguette_count", Int(3)), GetOr(data, "wine_count", Int(0)),
                   GetOr(data, "champagne_count", Int(0)), GetOr(data, "delivery_date", Null)))
  }

  /** Letter case does not matter in a serving style. */
  lemma StyleIgnoresCase()
    ensures StyleOf(Str("GRAND")) == Some(Grand)
  {
    assert Lower("GRAND") == "grand";
  }

  /** A misspelt serving style is served simple; a style that is not a string rejects the order. */
  lemma StyleFallback()
    ensures StyleOf(Str("royal")) == Some(Simple)
    ensures StyleOf(Null) == None && StyleOf(Int(1)) == None
  {
    assert Lower("royal") == "royal";
  }

  /** Order data naming only the dinner gives the catalog entry and every default. */
  lemma DinnerOnlyDraft()
    ensures DraftOf([Entry("dinner_type", Str("프렌치 디너"))])
      == Some(Draft(DinnerMenus["프렌치 디너"], Simple, Int(3), Int(0), Int(0), Null))
  {
    var data := [Entry("dinner_type", Str("프렌치 디너"))];
    GetFirst(data, 0);
    assert Lower("simple") == "simple";
  }

  /** Stores orders by id (remembering the order ids were first stored in) and customers by name. */
  class OrderProcessor {
    var orders: map<string, Order>
    /** The keys of `orders` in insertion order, which `list(self.orders.values())` follows. */
    var orderIds: seq<string>
    var customers: map<string, Customer>

    /** Every order is stored under its own id, and `orderIds` lists each key once. */
    predicate Indexed()
      reads this
    {
      && (forall id :: id in orders ==> orders[id].orderId == id)
      && (forall i, j :: 0 <= i < j < |orderIds| ==> orderIds[i] != orderIds[j])
      && (forall id :: id in orders ==> id in orderIds)
      && (forall i :: 0 <= i < |orderIds| ==> orderIds[i] in orders)
    }

    /** Every customer is registered under their own name, and every order in a history is theirs. */
    predicate Named()
      reads this, customers.Values
    {
      && (forall n :: n in customers ==> customers[n].name == n)
      && (forall n, i :: n in customers && 0 <= i < |customers[n].orderHistory| ==>
            customers[n].orderHistory[i].customerName == n)
    }

    /** Every stored order is in its customer's history. */
    predicate Linked()
      reads this, customers.Values
    {
      forall id :: id in orders ==>
        orders[id].customerName in customers && orders[id] in customers[orders[id].customerName].orderHistory
    }

    predicate Valid()
      reads this, customers.Values
    {
      Indexed() && Named() && Linked()
    }

    constructor ()
      ensures Valid() && orders == map[] && orderIds == [] && customers == map[]
    {
      orders := map[];
      orderIds := [];
      customers := map[];
    }

    /**
      `create_order_from_dialog`. `orderId` and `customerId` are the fresh ids and `now` the clock.
      Data the draft rejects (an unknown dinner, a serving style that is not a string) changes
      nothing and gives no order. Otherwise a confirmed order is stored under `orderId`, the
      customer is registered on first use, and the order is appended to their history.
    */
    method CreateOrderFromDialog(customerName: string, orderData: Dict, orderId: string, customerId: string, now: DateTime)
      returns (order: Option<Order>)
      requires Valid()
      modifies this, customers.Values
      ensures Valid()
      ensures DraftOf(orderData).None? ==>
        order.None? && orders == old(orders) && orderIds == old(orderIds) && customers == old(customers)
        && forall n :: n in customers ==> customers[n].orderHistory == old(customers[n].orderHistory)
      ensures DraftOf(orderData).Some? ==>
        var d := DraftOf(orderData).value;
        && order.Some? && fresh(order.value)
        && order.value.orderId == orderId && order.value.customerName == customerName && order.value.createdAt == now
        && order.value.dinnerMenu == d.dinnerMenu && order.value.servingStyle == d.servingStyle
        && order.value.baguetteCount == d.baguetteCount && order.value.wineCount == d.wineCount
        && order.value.champagneCount == d.champagneCount && order.value.deliveryDate == d.deliveryDate
        && order.value.status == "confirmed"
        && Placed(order.value, customerId)
    {
      var draft := DraftOf(orderData);
      if draft.None? {
        return None;
      }
      var d := draft.value;
      var o := new Order(orderId, customerName, d.dinnerMenu, d.servingStyle, Some(d.baguetteCount), Some(d.wineCount),
                         Some(d.champagneCount), Some(d.deliveryDate), now, Some("confirmed"));
      Place(o, customerId);
      order := Some(o);
    }

    /**
      The state after `o` is stored and added to its customer's history: `o` is under its id (a new id
      goes last in `orderIds`), its customer is registered (with `customerId` if new), their history
      ends with `o`, and every other customer's history is as it was.
    */
    twostate predicate Placed(new o: Order, customerId: string)
      reads this, customers.Values
    {
      var name := o.customerName;
      && orders == old(orders)[o.orderId := o]
      && orderIds == (if o.orderId in old(orders) then old(orderIds) else old(orderIds) + [o.orderId])
      && name in customers
      && customers[name].orderHistory == (if name in old(customers) then old(customers[name].orderHistory) else []) + [o]
      && (name in old(customers) ==> customers == old(customers))
      && (name !in old(customers) ==>
            fresh(customers[name]) && customers[name].customerId == Some(customerId)
            && customers == old(customers)[name := customers[name]])
      && forall n :: n in old(customers) && n != name ==> customers[n].orderHistory == old(customers[n].orderHistory)
    }

    /** Stores `o` and appends it to its customer's history, registering the customer on first use. */
    method Place(o: Order, customerId: string)
      requires Valid()
      modifies this, customers.Values
      ensures Valid()
      ensures Placed(o, customerId)
    {
      Store(o);
      File(o, customerId);
      forall id | id in orders
        ensures orders[id].customerName in customers && orders[id] in customers[orders[id].customerName].orderHistory
      {
        if id != o.orderId {
          var owner := orders[id].customerName;
          assert old(owner in customers && orders[id] in customers[owner].orderHistory);
          assert customers[owner].orderHistory[..|old(customers[owner].orderHistory)|] == old(customers[owner].orderHistory);
        }
      }
    }

    /** `self.orders[order.order_id] = order`: a new id goes last; a known one keeps its place. */
    method Store(o: Order)
      requires Indexed()
      modifies this
      ensures Indexed()
      ensures orders == old(orders)[o.orderId := o] && customers == old(customers)
      ensures orderIds == if o.orderId in old(orders) then old(orderIds) else old(orderIds) + [o.orderId]
    {
      if o.orderId !in orders {
        orderIds := orderIds + [o.orderId];
      }
      orders := orders[o.orderId := o];
    }

    /**
      Appends `o` to its customer's history, first registering the customer under their name with
      `customerId` when they are new; no other history changes.
    */
    method File(o: Order, customerId: string)
      requires Named()
      modifies this, customers.Values
      ensures Named()
      ensures orders == old(orders) && orderIds == old(orderIds)
      ensures var name := o.customerName;
        && name in customers
        && customers[name].orderHistory == (if name in old(customers) then old(customers[name].orderHistory) else []) + [o]
        && (name in old(customers) ==> customers == old(customers))
        && (name !in old(customers) ==>
              fresh(customers[name]) && customers[name].customerId == Some(customerId)
              && customers == old(customers)[name := customers[name]])
        && forall n :: n in old(customers) && n != name ==> customers[n].orderHistory == old(customers[n].orderHistory)
    {
      var name := o.customerName;
      var customer: Customer;
      if name !in customers {
        customer := new Customer(name, Some(customerId));
        customers := customers[name := customer];
      } else {
        customer := customers[name];
      }
      ghost var before := customer.orderHistory;
      customer.AddOrder(o);
      forall n | n in customers && n != name
        ensures customers[n] != customer && customers[n].orderHistory == old(customers[n].orderHistory)
      {
        assert customers[n].name == n;
      }
      forall n, i | n in customers && 0 <= i < |customers[n].orderHistory|
        ensures customers[n].orderHistory[i].customerName == n
      {
        if n == name && i == |before| {
          assert customers[n].orderHistory[i] == o;
        }
      }
    }

    /** `get_order`: the order stored under `orderId`, if any. */
    function GetOrder(orderId: string): (r: Option<Order>)
      requires Valid()
      reads this, customers.Values
      ensures r.Some? <==> orderId in orders
      ensures r.Some? ==> r.value == orders[orderId] && r.value.orderId == orderId
      ensures r.Some? ==> r.value.customerName in customers && r.value in customers[r.value.customerName].orderHistory
    {
      if orderId in orders then Some(orders[orderId]) else None
    }

    /** `get_customer_orders`: the customer's history, oldest first; none for an unknown name. */
    function GetCustomerOrders(customerName: string): (r: seq<Order>)
      requires Valid()
      reads this, customers.Values
      ensures customerName !in customers ==> r == []
      ensures forall i :: 0 <= i < |r| ==> r[i].customerName == customerName
    {
      if customerName in customers then customers[customerName].orderHistory else []
    }

    /**
      `update_order_status`: sets the status of a stored order in place, so the customer's history,
      which holds the same object, shows it too; `false` and no change for an unknown id.
    */
    method UpdateOrderStatus(orderId: string, status: string) returns (ok: bool)
      requires Valid()
      modifies if orderId in orders then {orders[orderId]} else {}
      ensures Valid()
      ensures ok <==> orderId in orders
      ensures ok ==> orders[orderId].status == status
      ensures ok ==> orders[orderId] in GetCustomerOrders(orders[orderId].customerName)
    {
      if orderId in orders {
        orders[orderId].status := status;
        return true;
      }
      return false;
    }

    /** `complete_order`: marks a stored order completed. */
    method CompleteOrder(orderId: string) returns (ok: bool)
      requires Valid()
      modifies if orderId in orders then {orders[orderId]} else {}
      ensures Valid()
      ensures ok <==> orderId in orders
      ensures ok ==> orders[orderId].status == "completed"
    {
      ok := UpdateOrderStatus(orderId, "completed");
    }

    /** `get_all_orders`: every stored order once, in the order their ids were first stored. */
    function GetAllOrders(): (r: seq<Order>)
      requires Valid()
      reads this, customers.Values
      ensures |r| == |orders| == |orderIds|
      ensures forall i :: 0 <= i < |r| ==> r[i] == orders[orderIds[i]]
      ensures forall id :: id in orders ==> orders[id] in r
    {
      DistinctSize(orderIds, orders.Keys);
      var r := seq(|orderIds|, i requires 0 <= i < |orderIds| && orderIds[i] in orders reads this => orders[orderIds[i]]);
      assert forall id :: id in orders ==> orders[id] in r by {
        forall id | id in orders ensures orders[id] in r {
          var i :| 0 <= i < |orderIds| && orderIds[i] == id;
          assert r[i] == orders[id];
        }
      }
      r
    }
  }

  /** A sequence without repeats has as many elements as the set of its elements. */
  lemma {:induction false} DistinctSize<T>(s: seq<T>, keys: set<T>)
    requires forall i, j :: 0 <= i < j < |s| ==> s[i] != s[j]
    requires forall x :: x in keys <==> x in s
    ensures |keys| == |s|
  {
    if s != [] {
      var last := s[|s| - 1];
      var init := s[..|s| - 1];
      assert forall x :: x in keys - {last} <==> x in init by {
        forall x ensures x in keys - {last} <==> x in init {
          if x in init {
            var i :| 0 <= i < |init| && init[i] == x;
            assert s[i] == x;
          }
          if x in s && x != last {
            var i :| 0 <= i < |s| && s[i] == x;
            assert i < |s| - 1;
            assert init[i] == x;
          }
        }
      }
      DistinctSize(init, keys - {last});
    }
  }
}
