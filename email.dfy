/**
 * The email service's message classes: their toDict methods, the dict2* functions that
 * rebuild them from decoded JSON, and the dummy service that only logs the request.
 */
module Email {
  import opened Wrappers
  import opened Json

  datatype CartItem = CartItem(productId: Value, quantity: Value)
  datatype Money = Money(currencyCode: Value, units: Value, nanos: Value)
  /** `None` stands for a Python attribute holding None. */
  datatype OrderItem = OrderItem(item: Option<CartItem>, cost: Option<Money>)
  datatype Address = Address(streetAddress: Value, city: Value, state: Value, country: Value, zipCode: Value)
  datatype OrderResult = OrderResult(
    orderId: Value,
    shippingTrackingId: Value,
    shippingCost: Option<Money>,
    shippingAddress: Option<Address>,
    items: seq<OrderItem>)
  datatype SendOrderConfirmationRequest = SendOrderConfirmationRequest(email: Value, order: Option<OrderResult>)

  /** The keys each dict2* function tests with `in`. */
  const CartItemKeys: set<string> := {"product_id", "quantity"}
  const MoneyKeys: set<string> := {"currency_code", "units", "nanos"}
  const AddressKeys: set<string> := {"street_address", "city", "state", "country", "zip_code"}
  const OrderItemKeys: set<string> := {"item", "cost"}
  const OrderResultKeys: set<string> := {"order_id", "shipping_tracking_id", "shipping_cost", "shipping_address", "items"}
  const RequestKeys: set<string> := {"email", "order"}

  // ---- flat records ----

  function CartItemToDict(c: CartItem): Value
  {
    Object(map["product_id" := c.productId, "quantity" := c.quantity])
  }

  function Dict2CartItem(fields: map<string, Value>): CartItem
  {
    CartItem(Get(fields, "product_id"), Get(fields, "quantity"))
  }

  function MoneyToDict(m: Money): Value
  {
    Object(map["currency_code" := m.currencyCode, "units" := m.units, "nanos" := m.nanos])
  }

  function Dict2Money(fields: map<string, Value>): Money
  {
    Money(Get(fields, "currency_code"), Get(fields, "units"), Get(fields, "nanos"))
  }

  function AddressToDict(a: Address): Value
  {
    Object(map[
      "street_address" := a.streetAddress, "city" := a.city, "state" := a.state,
      "country" := a.country, "zip_code" := a.zipCode])
  }

  function Dict2Address(fields: map<string, Value>): Address
  {
    Address(Get(fields, "street_address"), Get(fields, "city"), Get(fields, "state"),
            Get(fields, "country"), Get(fields, "zip_code"))
  }

  /** The flat records come back unchanged from their dictionaries. */
  lemma FlatRoundTrips(c: CartItem, m: Money, a: Address)
    ensures Dict2CartItem(CartItemToDict(c).fields) == c
    ensures Dict2Money(MoneyToDict(m).fields) == m
    ensures Dict2Address(AddressToDict(a).fields) == a
  {
  }

  // ---- nested records ----

  /** A nested value read by the dict2* function `decode`, which tests `keys`. */
  function Nested<T>(v: Value, keys: set<string>, decode: map<string, Value> -> T): Result<T, PyError>
  {
    match FieldsOf(v, keys) {
      case Success(f) => Success(decode(f))
      case Failure(e) => Failure(e)
    }
  }

  /** OrderItem.toDict: a None item or cost has no toDict and raises AttributeError. */
  function OrderItemToDict(oi: OrderItem): (r: Result<Value, PyError>)
    ensures r.Failure? <==> oi.item.None? || oi.cost.None?
  {
    if oi.item.None? || oi.cost.None? then Failure(AttributeError)
    else Success(Object(map["item" := CartItemToDict(oi.item.value), "cost" := MoneyToDict(oi.cost.value)]))
  }

  function Dict2OrderItem(fields: map<string, Value>): Result<OrderItem, PyError>
  {
    var item := if "item" in fields then Nested(fields["item"], CartItemKeys, Dict2CartItem) else Success(CartItem(Null, Null));
    var cost := if "cost" in fields then Nested(fields["cost"], MoneyKeys, Dict2Money) else Success(Money(Null, Null, Null));
    if item.Failure? || cost.Failure? then Failure(TypeError)
    else Success(OrderItem(if "item" in fields then Some(item.value) else None,
                           if "cost" in fields then Some(cost.value) else None))
  }

  /** One element of the `items` list, read with dict2OrderItem. */
  function DecodeItem(v: Value): Result<OrderItem, PyError>
  {
    match FieldsOf(v, OrderItemKeys) {
      case Success(f) => Dict2OrderItem(f)
      case Failure(e) => Failure(e)
    }
  }

  /** The order items of a list, decoded front to back; the first bad element raises. */
  function DecodeItems(elems: seq<Value>): Result<seq<OrderItem>, PyError>
  {
    if |elems| == 0 then Success([])
    else
      var front := DecodeItems(elems[..|elems| - 1]);
      if front.Failure? then front
      else
        var last := DecodeItem(elems[|elems| - 1]);
        if last.Failure? then Failure(last.error) else Success(front.value + [last.value])
  }

  /** The order items, encoded front to back; the first incomplete item raises. */
  function EncodeItems(items: seq<OrderItem>): Result<seq<Value>, PyError>
  {
    if |items| == 0 then Success([])
    else
      var front := EncodeItems(items[..|items| - 1]);
      if front.Failure? then front
      else
        var last := OrderItemToDict(items[|items| - 1]);
        if last.Failure? then Failure(last.error) else Success(front.value + [last.value])
  }

  /** The fields toDict writes for `o`, with `vs` as the encoded items. */
  function EncodedFields(o: OrderResult, vs: seq<Value>): map<string, Value>
    requires o.shippingCost.Some? && o.shippingAddress.Some?
  {
    map[
      "order_id" := o.orderId,
      "shipping_tracking_id" := o.shippingTrackingId,
      "shipping_cost" := MoneyToDict(o.shippingCost.value),
      "shipping_address" := AddressToDict(o.shippingAddress.value),
      "items" := List(vs)]
  }

  /** OrderResult.toDict: items first, then the nested shipping cost and address. */
  function OrderResultDict(o: OrderResult): Result<Value, PyError>
  {
    var items := EncodeItems(o.items);
    if items.Failure? then Failure(items.error)
    else if o.shippingCost.None? || o.shippingAddress.None? then Failure(AttributeError)
    else Success(Object(EncodedFields(o, items.value)))
  }

  /** dict2OrderResult: absent keys give None, and absent items the empty list. */
  function OrderResultFromDict(fields: map<string, Value>): Result<OrderResult, PyError>
  {
    var cost := if "shipping_cost" in fields then Nested(fields["shipping_cost"], MoneyKeys, Dict2Money)
                else Success(Money(Null, Null, Null));
    var address := if "shipping_address" in fields then Nested(fields["shipping_address"], AddressKeys, Dict2Address)
                   else Success(Address(Null, Null, Null, Null, Null));
    var items: Result<seq<OrderItem>, PyError> :=
      if "items" !in fields then Success([])
      else match Elements(fields["items"]) {
        case Success(elems) => DecodeItems(elems)
        case Failure(e) => Failure(e)
      };
    if cost.Failure? || address.Failure? || items.Failure? then Failure(TypeError)
    else Success(OrderResult(
      Get(fields, "order_id"), Get(fields, "shipping_tracking_id"),
      if "shipping_cost" in fields then Some(cost.value) else None,
      if "shipping_address" in fields then Some(address.value) else None,
      items.value))
  }

  /** OrderResult.toDict, appending one encoded item at a time. */
  method OrderResultToDict(o: OrderResult) returns (r: Result<Value, PyError>)
    ensures r == OrderResultDict(o)
  {
    var itemsArr: seq<Value> := [];
    var i := 0;
    while i < |o.items|
      invariant 0 <= i <= |o.items|
      invariant EncodeItems(o.items[..i]) == Success(itemsArr)
    {
      assert o.items[..i + 1][..i] == o.items[..i];
      var d := OrderItemToDict(o.items[i]);
      if d.Failure? {
        EncodeFailureSticks(o.items, i + 1);
        return Failure(d.error);
      }
      itemsArr := itemsArr + [d.value];
      i := i + 1;
    }
    assert o.items[..i] == o.items;
    if o.shippingCost.None? || o.shippingAddress.None? {
      return Failure(AttributeError);
    }
    r := Success(Object(map[
      "order_id" := o.orderId,
      "shipping_tracking_id" := o.shippingTrackingId,
      "shipping_cost" := MoneyToDict(o.shippingCost.value),
      "shipping_address" := AddressToDict(o.shippingAddress.value),
      "items" := List(itemsArr)]));
  }

  /** dict2OrderResult, appending one decoded item at a time. */
  method Dict2OrderResult(fields: map<string, Value>) returns (r: Result<OrderResult, PyError>)
    ensures r == OrderResultFromDict(fields)
  {
    var cost: Option<Money> := None;
    var address: Option<Address> := None;
    var items: seq<OrderItem> := [];
    if "shipping_cost" in fields {
      var c := Nested(fields["shipping_cost"], MoneyKeys, Dict2Money);
      if c.Failure? {
        return Failure(TypeError);
      }
      cost := Some(c.value);
    }
    if "shipping_address" in fields {
      var a := Nested(fields["shipping_address"], AddressKeys, Dict2Address);
      if a.Failure? {
        return Failure(TypeError);
      }
      address := Some(a.value);
    }
    if "items" in fields {
      match Elements(fields["items"]) {
        case Success(elems) =>
          var i := 0;
          while i < |elems|
            invariant 0 <= i <= |elems|
            invariant DecodeItems(elems[..i]) == Success(items)
          {
            assert elems[..i + 1][..i] == elems[..i];
            var item := DecodeItem(elems[i]);
            if item.Failure? {
              DecodeFailureSticks(elems, i + 1);
              return Failure(TypeError);
            }
            items := items + [item.value];
            i := i + 1;
          }
          assert elems[..i] == elems;
        case Failure(_) =>
          return Failure(TypeError);
      }
    }
    r := Success(OrderResult(Get(fields, "order_id"), Get(fields, "shipping_tracking_id"),
                             cost, address, items));
  }

  function RequestDict(req: SendOrderConfirmationRequest): Result<Value, PyError>
  {
    if req.order.None? then Failure(AttributeError)
    else
      var order := OrderResultDict(req.order.value);
      if order.Failure? then Failure(order.error)
      else Success(Object(map["email" := req.email, "order" := order.value]))
  }

  /** dict2SendOrderConfirmationRequest on the decoded request body. */
  function RequestFromDict(dic: Value): Result<SendOrderConfirmationRequest, PyError>
  {
    match FieldsOf(dic, RequestKeys) {
      case Failure(e) => Failure(e)
      case Success(fields) =>
        if "order" !in fields then Success(SendOrderConfirmationRequest(Get(fields, "email"), None))
        else match FieldsOf(fields["order"], OrderResultKeys) {
          case Success(f) =>
            var order := OrderResultFromDict(f);
            if order.Failure? then Failure(order.error)
            else Success(SendOrderConfirmationRequest(Get(fields, "email"), Some(order.value)))
          case Failure(e) => Failure(e)
        }
    }
  }

  /** SendOrderConfirmationRequest.toDict. */
  method SendOrderConfirmationRequestToDict(req: SendOrderConfirmationRequest) returns (r: Result<Value, PyError>)
    ensures r == RequestDict(req)
  {
    if req.order.None? {
      return Failure(AttributeError);
    }
    var order := OrderResultToDict(req.order.value);
    if order.Failure? {
      return Failure(order.error);
    }
    r := Success(Object(map["email" := req.email, "order" := order.value]));
  }

  /** dict2SendOrderConfirmationRequest. */
  method Dict2SendOrderConfirmationRequest(dic: Value) returns (r: Result<SendOrderConfirmationRequest, PyError>)
    ensures r == RequestFromDict(dic)
  {
    var read := FieldsOf(dic, RequestKeys);
    if read.Failure? {
      return Failure(read.error);
    }
    var fields := read.value;
    var order: Option<OrderResult> := None;
    if "order" in fields {
      match FieldsOf(fields["order"], OrderResultKeys) {
        case Success(f) =>
          var o := Dict2OrderResult(f);
          if o.Failure? {
            return Failure(o.error);
          }
          order := Some(o.value);
        case Failure(e) =>
          return Failure(e);
      }
    }
    r := Success(SendOrderConfirmationRequest(Get(fields, "email"), order));
  }

  /** The dummy service only logs the recipient; it holds no state. */
  class DummyEmailService {
    constructor ()
    {
    }

    /** Returns Python's None. */
    method SendOrderConfirmation(req: SendOrderConfirmationRequest) returns (r: Value)
      ensures r == Null
    {
      r := Null;
    }
  }

  // ---- properties ----

  /** Once a prefix fails to decode, the whole list fails with the same error. */
  lemma {:induction false} DecodeFailureSticks(elems: seq<Value>, n: nat)
    requires n <= |elems|
    requires DecodeItems(elems[..n]).Failure?
    ensures DecodeItems(elems) == DecodeItems(elems[..n])
    decreases |elems| - n
  {
    if n < |elems| {
      assert elems[..n + 1][..n] == elems[..n];
      DecodeFailureSticks(elems, n + 1);
    } else {
      assert elems[..n] == elems;
    }
  }

  /** Once a prefix fails to encode, the whole list fails with the same error. */
  lemma {:induction false} EncodeFailureSticks(items: seq<OrderItem>, n: nat)
    requires n <= |items|
    requires EncodeItems(items[..n]).Failure?
    ensures EncodeItems(items) == EncodeItems(items[..n])
    decreases |items| - n
  {
    if n < |items| {
      assert items[..n + 1][..n] == items[..n];
      EncodeFailureSticks(items, n + 1);
    } else {
      assert items[..n] == items;
    }
  }

  predicate Complete(oi: OrderItem)
  {
    oi.item.Some? && oi.cost.Some?
  }

  /** Every nested object is present, so every toDict call has something to call. */
  predicate FullyPopulated(o: OrderResult)
  {
    o.shippingCost.Some? && o.shippingAddress.Some?
    && forall i :: 0 <= i < |o.items| ==> Complete(o.items[i])
  }

  /** Encoding the items succeeds exactly when every item is complete, one value per item. */
  lemma {:induction false} EncodeItemsSucceeds(items: seq<OrderItem>)
    ensures EncodeItems(items).Success? <==> forall i :: 0 <= i < |items| ==> Complete(items[i])
    ensures EncodeItems(items).Success? ==> |EncodeItems(items).value| == |items|
  {
    if |items| != 0 {
      var front := items[..|items| - 1];
      EncodeItemsSucceeds(front);
      assert forall i :: 0 <= i < |front| ==> front[i] == items[i];
    }
  }

  /** OrderResult.toDict succeeds exactly on a fully populated order. */
  lemma ToDictNeedsNestedObjects(o: OrderResult)
    ensures OrderResultDict(o).Success? <==> FullyPopulated(o)
  {
    EncodeItemsSucceeds(o.items);
  }

  /** A complete order item survives toDict and dict2OrderItem. */
  lemma OrderItemRoundTrip(oi: OrderItem)
    requires Complete(oi)
    ensures DecodeItem(OrderItemToDict(oi).value) == Success(oi)
  {
    FlatRoundTrips(oi.item.value, oi.cost.value, Address(Null, Null, Null, Null, Null));
    var f := OrderItemToDict(oi).value.fields;
    assert f["item"] == CartItemToDict(oi.item.value);
    assert f["cost"] == MoneyToDict(oi.cost.value);
  }

  /** dict2OrderResult rebuilds the items of toDict in their order. */
  lemma {:induction false} ItemsRoundTrip(items: seq<OrderItem>)
    requires EncodeItems(items).Success?
    ensures DecodeItems(EncodeItems(items).value) == Success(items)
  {
    if |items| != 0 {
      var front := items[..|items| - 1];
      var last := items[|items| - 1];
      assert EncodeItems(front).Success?;
      var encoded := OrderItemToDict(last);
      assert encoded.Success?;
      ItemsRoundTrip(front);
      OrderItemRoundTrip(last);
      var fv := EncodeItems(front).value;
      var vs := EncodeItems(items).value;
      assert vs == fv + [encoded.value];
      assert vs[..|vs| - 1] == fv;
      assert DecodeItems(vs) == Success(front + [last]);
      assert items == front + [last];
    }
  }

  lemma DecodeEncodedFields(o: OrderResult, vs: seq<Value>)
    requires o.shippingCost.Some? && o.shippingAddress.Some?
    requires DecodeItems(vs) == Success(o.items)
    ensures OrderResultFromDict(EncodedFields(o, vs)) == Success(o)
  {
    FlatRoundTrips(CartItem(Null, Null), o.shippingCost.value, o.shippingAddress.value);
    var d := EncodedFields(o, vs);
    assert Nested(d["shipping_cost"], MoneyKeys, Dict2Money) == Success(o.shippingCost.value);
    assert Nested(d["shipping_address"], AddressKeys, Dict2Address) == Success(o.shippingAddress.value);
    assert d["items"] == List(vs);
    assert Get(d, "order_id") == o.orderId && Get(d, "shipping_tracking_id") == o.shippingTrackingId;
  }

  /** For a fully populated order, dict2OrderResult(o.toDict()) has o's field values. */
  lemma OrderResultRoundTrip(o: OrderResult)
    requires FullyPopulated(o)
    ensures OrderResultDict(o).Success?
    ensures OrderResultFromDict(OrderResultDict(o).value.fields) == Success(o)
  {
    ToDictNeedsNestedObjects(o);
    var vs := EncodeItems(o.items).value;
    ItemsRoundTrip(o.items);
    assert OrderResultDict(o).value.fields == EncodedFields(o, vs);
    DecodeEncodedFields(o, vs);
  }

  /** The confirmation request round-trips when its order is fully populated. */
  lemma RequestRoundTrip(req: SendOrderConfirmationRequest)
    requires req.order.Some? && FullyPopulated(req.order.value)
    ensures RequestDict(req).Success?
    ensures RequestFromDict(RequestDict(req).value) == Success(req)
  {
    OrderResultRoundTrip(req.order.value);
  }

  /** Absent keys decode to None, and absent items to the empty list. */
  lemma MissingKeysDefault()
    ensures Dict2CartItem(map[]) == CartItem(Null, Null)
    ensures Dict2Money(map[]) == Money(Null, Null, Null)
    ensures Dict2Address(map[]) == Address(Null, Null, Null, Null, Null)
    ensures Dict2OrderItem(map[]) == Success(OrderItem(None, None))
    ensures OrderResultFromDict(map[]) == Success(OrderResult(Null, Null, None, None, []))
    ensures RequestFromDict(Object(map[])) == Success(SendOrderConfirmationRequest(Null, None))
  {
  }
}
