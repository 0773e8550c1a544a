/**
 * The checkout sequence of the checkout service: PlaceOrder, the preparation of order
 * items and the shipping quote. Every collaborator service (cart, catalog, currency,
 * shipping, payment, email) and the order-id generator is an oracle that answers a
 * request with a value or an error. Each method returns the log of the calls it made,
 * so that the order of the calls, the abort on the first failure and the absence of
 * compensation can be stated and proved.
 */
module Checkout {
  import opened Wrappers
  import opened Money

  datatype CartItem = CartItem(productId: string, quantity: Int32)

  datatype Address = Address(streetAddress: string, city: string, state: string, country: string, zipCode: Int32)

  datatype CreditCardInfo = CreditCardInfo(number: string, cvv: Int32, expirationYear: Int32, expirationMonth: Int32)

  datatype Product = Product(id: string, name: string, description: string, picture: string, priceUsd: Money, categories: seq<string>)

  /** A cart item with its per-unit price in the user's currency. */
  datatype OrderItem = OrderItem(item: CartItem, cost: Money)

  datatype OrderResult = OrderResult(
    orderId: string,
    shippingTrackingId: string,
    shippingCost: Money,
    shippingAddress: Address,
    items: seq<OrderItem>)

  datatype PlaceOrderRequest = PlaceOrderRequest(
    userId: string,
    userCurrency: string,
    address: Address,
    email: string,
    creditCard: CreditCardInfo)

  /** A collaborator's answer to one request. */
  datatype Reply<+T> = Answered(value: T) | CallFailed

  /** The collaborators, each answering as a function of its request. */
  datatype Collaborators = Collaborators(
    newOrderId: Reply<string>,
    getCart: string -> Reply<seq<CartItem>>,
    getProduct: string -> Reply<Product>,
    convert: (Money, string) -> Reply<Money>,
    getQuote: (Address, seq<CartItem>) -> Reply<Money>,
    charge: (Money, CreditCardInfo) -> Reply<string>,
    shipOrder: (Address, seq<CartItem>) -> Reply<string>,
    emptyCart: string -> Reply<()>,
    sendOrderConfirmation: (string, OrderResult) -> Reply<()>)

  /** One request to a collaborator, tagged with the step that issued it. */
  datatype Call =
    | NewOrderId
    | GetCart(userId: string)
    | GetProduct(productId: string)
    | ConvertPrice(from: Money, toCode: string)
    | GetQuote(address: Address, items: seq<CartItem>)
    | ConvertShipping(from: Money, toCode: string)
    | Charge(amount: Money, card: CreditCardInfo)
    | ShipOrder(address: Address, items: seq<CartItem>)
    | EmptyCart(userId: string)
    | SendOrderConfirmation(email: string, order: OrderResult)

  /** Which step failed; each one is a distinct error message of PlaceOrder. */
  datatype Failure =
    | OrderIdFailure
    | CartFailure
    | ProductFailure(productId: string)
    | PriceConversionFailure(productId: string)
    | QuoteFailure
    | ShippingConversionFailure
    | ChargeFailure
    | ShipmentFailure
    | EmptyCartFailure

  /** The failures that can end the preparation of an order. */
  predicate IsPreparationFailure(f: Failure) {
    f.CartFailure? || f.ProductFailure? || f.PriceConversionFailure? || f.QuoteFailure? || f.ShippingConversionFailure?
  }

  /** PlaceOrder returns an order or an error, or panics inside Must while totalling. */
  datatype Outcome = Placed(order: OrderResult) | Failed(failure: Failure) | Panic(cause: MoneyError)

  datatype Preparation = Preparation(orderItems: seq<OrderItem>, cartItems: seq<CartItem>, shippingCostLocalized: Money)
  /** Whether the collaborator answered the call with a value. */
  predicate Succeeds(env: Collaborators, c: Call) {
    match c
    case NewOrderId => env.newOrderId.Answered?
    case GetCart(u) => env.getCart(u).Answered?
    case GetProduct(id) => env.getProduct(id).Answered?
    case ConvertPrice(from, to) => env.convert(from, to).Answered?
    case GetQuote(a, items) => env.getQuote(a, items).Answered?
    case ConvertShipping(from, to) => env.convert(from, to).Answered?
    case Charge(amount, card) => env.charge(amount, card).Answered?
    case ShipOrder(a, items) => env.shipOrder(a, items).Answered?
    case EmptyCart(u) => env.emptyCart(u).Answered?
    case SendOrderConfirmation(email, order) => env.sendOrderConfirmation(email, order).Answered?
  }

  predicate AllSucceed(env: Collaborators, log: seq<Call>) {
    forall c | c in log :: Succeeds(env, c)
  }

  /** The log ends with a failed call and every call before it succeeded. */
  predicate LastFails(env: Collaborators, log: seq<Call>) {
    |log| > 0 && !Succeeds(env, log[|log| - 1]) && AllSucceed(env, log[..|log| - 1])
  }

  /** The position of a call's step in the checkout sequence. */
  function Rank(c: Call): nat {
    match c
    case NewOrderId => 0
    case GetCart(_) => 1
    case GetProduct(_) => 2
    case ConvertPrice(_, _) => 2
    case GetQuote(_, _) => 3
    case ConvertShipping(_, _) => 4
    case Charge(_, _) => 5
    case ShipOrder(_, _) => 6
    case EmptyCart(_) => 7
    case SendOrderConfirmation(_, _) => 8
  }

  predicate InOrder(log: seq<Call>) {
    forall i, j | 0 <= i < j < |log| :: Rank(log[i]) <= Rank(log[j])
  }

  predicate RanksWithin(log: seq<Call>, lo: nat, hi: nat) {
    forall c | c in log :: lo <= Rank(c) <= hi
  }

  // ---------------------------------------------------------------------------
  // Specification functions

  /** The calls made for one cart item (catalog lookup, then price conversion) and the order item they yield. */
  function PriceItem(env: Collaborators, item: CartItem, currency: string): (Result<OrderItem, Failure>, seq<Call>) {
    var lookup := GetProduct(item.productId);
    match env.getProduct(item.productId)
    case CallFailed => (Failure(ProductFailure(item.productId)), [lookup])
    case Answered(product) =>
      var calls := [lookup, ConvertPrice(product.priceUsd, currency)];
      match env.convert(product.priceUsd, currency)
      case CallFailed => (Failure(PriceConversionFailure(item.productId)), calls)
      case Answered(price) => (Success(OrderItem(item, price)), calls)
  }

  /** The order items of the cart items, in cart order, stopping at the first failure, and the calls made. */
  function PricedItems(env: Collaborators, items: seq<CartItem>, currency: string): (Result<seq<OrderItem>, Failure>, seq<Call>)
    decreases |items|
  {
    if |items| == 0 then (Success([]), [])
    else
      var prev := PricedItems(env, items[..|items| - 1], currency);
      if prev.0.Failure? then prev
      else
        var one := PriceItem(env, items[|items| - 1], currency);
        (if one.0.Failure? then Failure(one.0.error) else Success(prev.0.value + [one.0.value]), prev.1 + one.1)
  }

  /** The shipping quote for the cart items, converted to the user's currency, and the calls made. */
  function Quoted(env: Collaborators, cartItems: seq<CartItem>, currency: string, address: Address): (Result<Money, Failure>, seq<Call>) {
    var quote := GetQuote(address, cartItems);
    match env.getQuote(address, cartItems)
    case CallFailed => (Failure(QuoteFailure), [quote])
    case Answered(shippingUsd) =>
      var calls := [quote, ConvertShipping(shippingUsd, currency)];
      match env.convert(shippingUsd, currency)
      case CallFailed => (Failure(ShippingConversionFailure), calls)
      case Answered(shipping) => (Success(shipping), calls)
  }

  /** The user's cart, its priced items and the localized shipping cost, and the calls made. */
  function Prepared(env: Collaborators, userId: string, currency: string, address: Address): (Result<Preparation, Failure>, seq<Call>) {
    match env.getCart(userId)
    case CallFailed => (Failure(CartFailure), [GetCart(userId)])
    case Answered(cartItems) =>
      var priced := PricedItems(env, cartItems, currency);
      if priced.0.Failure? then (Failure(priced.0.error), [GetCart(userId)] + priced.1)
      else
        var quoted := Quoted(env, cartItems, currency, address);
        (if quoted.0.Failure? then Failure(quoted.0.error) else Success(Preparation(priced.0.value, cartItems, quoted.0.value)),
         [GetCart(userId)] + priced.1 + quoted.1)
  }

  /** Each item's cost times its quantity (as uint32) added to `total` in order, through Must(Sum(...)). */
  function AddItemCosts(total: Money, items: seq<OrderItem>): (r: Panicky<Money>)
    ensures r.Returned? ==> r.value.currencyCode == total.currencyCode
    decreases |items|
  {
    if |items| == 0 then Returned(total)
    else
      match Multiplied(items[0].cost, ToUint32(items[0].item.quantity))
      case Panicked(e) => Panicked(e)
      case Returned(line) =>
        match Must(Sum(total, line))
        case Panicked(e) => Panicked(e)
        case Returned(next) => AddItemCosts(next, items[1..])
  }

  /** The amount charged: zero in the user's currency, plus shipping, plus every item line. */
  function OrderTotal(currency: string, shipping: Money, items: seq<OrderItem>): (r: Panicky<Money>)
    ensures !IsValid(shipping) ==> r == Panicked(ErrInvalidValue)
    ensures IsValid(shipping) && shipping.currencyCode != currency ==> r == Panicked(ErrMismatchingCurrency)
    ensures r.Returned? ==> r.value.currencyCode == currency && shipping.currencyCode == currency
  {
    match Must(Sum(Money(currency, 0, 0), shipping))
    case Panicked(e) => Panicked(e)
    case Returned(start) => AddItemCosts(start, items)
  }

  /** Charge, ship, empty the cart and send the confirmation, stopping at the first failure but the last. */
  function Settled(env: Collaborators, req: PlaceOrderRequest, orderId: string, p: Preparation, total: Money): (Outcome, seq<Call>) {
    var charge := Charge(total, req.creditCard);
    match env.charge(total, req.creditCard)
    case CallFailed => (Failed(ChargeFailure), [charge])
    case Answered(_) =>
      var ship := ShipOrder(req.address, p.cartItems);
      match env.shipOrder(req.address, p.cartItems)
      case CallFailed => (Failed(ShipmentFailure), [charge, ship])
      case Answered(trackingId) =>
        var empty := EmptyCart(req.userId);
        match env.emptyCart(req.userId)
        case CallFailed => (Failed(EmptyCartFailure), [charge, ship, empty])
        case Answered(_) =>
          var order := OrderResult(orderId, trackingId, p.shippingCostLocalized, req.address, p.orderItems);
          (Placed(order), [charge, ship, empty, SendOrderConfirmation(req.email, order)])
  }

  /** Total the prepared order, then settle it; a panic while totalling ends the checkout with no call. */
  function Fulfilled(env: Collaborators, req: PlaceOrderRequest, orderId: string, p: Preparation): (Outcome, seq<Call>) {
    match OrderTotal(req.userCurrency, p.shippingCostLocalized, p.orderItems)
    case Panicked(e) => (Panic(e), [])
    case Returned(total) => Settled(env, req, orderId, p, total)
  }

  /** The whole checkout: its outcome and the calls it made, in order. */
  function CheckoutRun(env: Collaborators, req: PlaceOrderRequest): (r: (Outcome, seq<Call>))
    ensures |r.1| >= 1 && r.1[0] == NewOrderId
    ensures env.newOrderId.CallFailed? ==> r == (Failed(OrderIdFailure), [NewOrderId])
    ensures r.0.Placed? ==>
      env.newOrderId.Answered? && r.0.order.orderId == env.newOrderId.value
      && r.0.order.shippingAddress == req.address
  {
    match env.newOrderId
    case CallFailed => (Failed(OrderIdFailure), [NewOrderId])
    case Answered(orderId) =>
      var prep := Prepared(env, req.userId, req.userCurrency, req.address);
      if prep.0.Failure? then (Failed(prep.0.error), [NewOrderId] + prep.1)
      else
        var fin := Fulfilled(env, req, orderId, prep.0.value);
        (fin.0, [NewOrderId] + prep.1 + fin.1)
  }

  // ---------------------------------------------------------------------------
  // The methods

  method PrepOrderItems(env: Collaborators, items: seq<CartItem>, currency: string)
    returns (r: Result<seq<OrderItem>, Failure>, log: seq<Call>)
    ensures (r, log) == PricedItems(env, items, currency)
  {
    var out := new OrderItem[|items|];
    log := [];
    var i := 0;
    while i < |items|
      invariant 0 <= i <= |items|
      invariant PricedItems(env, items[..i], currency) == (Success(out[..i]), log)
    {
      var item := items[i];
      var prefix := items[..i + 1];
      assert prefix[..|prefix| - 1] == items[..i] && prefix[|prefix| - 1] == item;
      var before := log;
      log := log + [GetProduct(item.productId)];
      var product := env.getProduct(item.productId);
      if product.CallFailed? {
        r := Failure(ProductFailure(item.productId));
        assert PriceItem(env, item, currency) == (Failure(ProductFailure(item.productId)), [GetProduct(item.productId)]);
        assert PricedItems(env, prefix, currency) == (r, log);
        PricedItemsKeepsFailure(env, items, i + 1, currency);
        return;
      }
      log := log + [ConvertPrice(product.value.priceUsd, currency)];
      var price := env.convert(product.value.priceUsd, currency);
      assert log == before + [GetProduct(item.productId), ConvertPrice(product.value.priceUsd, currency)];
      if price.CallFailed? {
        r := Failure(PriceConversionFailure(item.productId));
        assert PriceItem(env, item, currency).0 == Failure(PriceConversionFailure(item.productId));
        assert PricedItems(env, prefix, currency) == (r, log);
        PricedItemsKeepsFailure(env, items, i + 1, currency);
        return;
      }
      out[i] := OrderItem(item, price.value);
      assert PriceItem(env, item, currency) == (Success(out[i]), log[|before|..]);
      assert out[..i + 1] == out[..i] + [out[i]];
      i := i + 1;
    }
    assert items[..|items|] == items && out[..] == out[..|items|];
    r := Success(out[..]);
  }

  method PrepareOrderItemsAndShippingQuoteFromCart(env: Collaborators, userId: string, currency: string, address: Address)
    returns (r: Result<Preparation, Failure>, log: seq<Call>)
    ensures (r, log) == Prepared(env, userId, currency, address)
  {
    log := [GetCart(userId)];
    var cartItems := env.getCart(userId);
    if cartItems.CallFailed? {
      return Failure(CartFailure), log;
    }
    var orderItems, pricingLog := PrepOrderItems(env, cartItems.value, currency);
    log := log + pricingLog;
    if orderItems.Failure? {
      return Failure(orderItems.error), log;
    }
    var head := log;
    log := log + [GetQuote(address, cartItems.value)];
    var shippingUsd := env.getQuote(address, cartItems.value);
    if shippingUsd.CallFailed? {
      return Failure(QuoteFailure), log;
    }
    log := log + [ConvertShipping(shippingUsd.value, currency)];
    var shippingPrice := env.convert(shippingUsd.value, currency);
    assert log == head + Quoted(env, cartItems.value, currency, address).1;
    if shippingPrice.CallFailed? {
      return Failure(ShippingConversionFailure), log;
    }
    r := Success(Preparation(orderItems.value, cartItems.value, shippingPrice.value));
  }

  method PlaceOrder(env: Collaborators, req: PlaceOrderRequest) returns (outcome: Outcome, log: seq<Call>)
    ensures (outcome, log) == CheckoutRun(env, req)
  {
    log := [NewOrderId];
    var orderId := env.newOrderId;
    if orderId.CallFailed? {
      return Failed(OrderIdFailure), log;
    }
    var prep, prepLog := PrepareOrderItemsAndShippingQuoteFromCart(env, req.userId, req.userCurrency, req.address);
    log := log + prepLog;
    if prep.Failure? {
      return Failed(prep.error), log;
    }
    var p := prep.value;
    assert log + [] == log;

    var start := Must(Sum(Money(req.userCurrency, 0, 0), p.shippingCostLocalized));
    if start.Panicked? {
      return Panic(start.cause), log;
    }
    var total := start.value;
    var i := 0;
    while i < |p.orderItems|
      invariant 0 <= i <= |p.orderItems|
      invariant AddItemCosts(total, p.orderItems[i..]) == OrderTotal(req.userCurrency, p.shippingCostLocalized, p.orderItems)
    {
      var it := p.orderItems[i];
      var line := MultiplySlow(it.cost, ToUint32(it.item.quantity));
      if line.Panicked? {
        return Panic(line.cause), log;
      }
      var next := Must(Sum(total, line.value));
      if next.Panicked? {
        return Panic(next.cause), log;
      }
      assert p.orderItems[i..][1..] == p.orderItems[i + 1..];
      total := next.value;
      i := i + 1;
    }

    var settled := log;
    log := log + [Charge(total, req.creditCard)];
    var txId := env.charge(total, req.creditCard);
    if txId.CallFailed? {
      return Failed(ChargeFailure), log;
    }
    log := log + [ShipOrder(req.address, p.cartItems)];
    var trackingId := env.shipOrder(req.address, p.cartItems);
    if trackingId.CallFailed? {
      assert log == settled + [Charge(total, req.creditCard), ShipOrder(req.address, p.cartItems)];
      return Failed(ShipmentFailure), log;
    }
    log := log + [EmptyCart(req.userId)];
    var emptied := env.emptyCart(req.userId);
    if emptied.CallFailed? {
      assert log == settled + [Charge(total, req.creditCard), ShipOrder(req.address, p.cartItems), EmptyCart(req.userId)];
      return Failed(EmptyCartFailure), log;
    }
    var order := OrderResult(orderId.value, trackingId.value, p.shippingCostLocalized, req.address, p.orderItems);
    log := log + [SendOrderConfirmation(req.email, order)];
    // A failed confirmation is only logged: the order is returned either way.
    var sent := env.sendOrderConfirmation(req.email, order);
    assert log == settled + [Charge(total, req.creditCard), ShipOrder(req.address, p.cartItems), EmptyCart(req.userId), SendOrderConfirmation(req.email, order)];
    outcome := Placed(order);
  }

  // ---------------------------------------------------------------------------
  // Lemmas about composing logs

  lemma LastFailsAfter(env: Collaborators, a: seq<Call>, b: seq<Call>)
    requires AllSucceed(env, a) && LastFails(env, b)
    ensures LastFails(env, a + b)
  {
    assert (a + b)[..|a + b| - 1] == a + b[..|b| - 1];
  }

  lemma ConcatInOrder(a: seq<Call>, b: seq<Call>, mid: nat)
    requires InOrder(a) && InOrder(b)
    requires forall c | c in a :: Rank(c) <= mid
    requires forall c | c in b :: mid <= Rank(c)
    ensures InOrder(a + b)
  {
    forall i, j | 0 <= i < j < |a + b|
      ensures Rank((a + b)[i]) <= Rank((a + b)[j])
    {
      if i < |a| && j >= |a| {
        assert (a + b)[i] in a && (a + b)[j] in b;
      }
    }
  }

  // ---------------------------------------------------------------------------
  // Lemmas about item pricing

  /** One item: a lookup, then a conversion only if the lookup answered; the item is priced iff both answered. */
  lemma PriceItemFacts(env: Collaborators, item: CartItem, currency: string)
    ensures var one := PriceItem(env, item, currency);
      && 1 <= |one.1| <= 2
      && one.1[0] == GetProduct(item.productId)
      && RanksWithin(one.1, 2, 2)
      && (one.0.Success? ==> && |one.1| == 2 && AllSucceed(env, one.1) && one.0.value.item == item
                             && PricedAs(env, item, currency, one.0.value.cost)
                             && one.1[1] == ConvertPrice(env.getProduct(item.productId).value.priceUsd, currency))
      && (one.0.Failure? ==> LastFails(env, one.1)
                             && one.0.error in {ProductFailure(item.productId), PriceConversionFailure(item.productId)})
  {
  }

  /** Once a prefix of the cart fails to price, the whole cart fails with the same error and calls. */
  lemma {:induction false} PricedItemsKeepsFailure(env: Collaborators, items: seq<CartItem>, j: nat, currency: string)
    requires j <= |items|
    requires PricedItems(env, items[..j], currency).0.Failure?
    ensures PricedItems(env, items, currency) == PricedItems(env, items[..j], currency)
    decreases |items| - j
  {
    if j < |items| {
      var shorter := items[..|items| - 1];
      assert shorter[..j] == items[..j];
      PricedItemsKeepsFailure(env, shorter, j, currency);
    } else {
      assert items[..j] == items;
    }
  }

  /** The price the checkout records for a cart item: its catalog price converted to the currency. */
  predicate PricedAs(env: Collaborators, item: CartItem, currency: string, cost: Money) {
    && env.getProduct(item.productId).Answered?
    && env.convert(env.getProduct(item.productId).value.priceUsd, currency) == Answered(cost)
  }

  /** The product ids looked up in a log, in order. */
  function Lookups(log: seq<Call>): seq<string> {
    if |log| == 0 then []
    else if log[|log| - 1].GetProduct? then Lookups(log[..|log| - 1]) + [log[|log| - 1].productId]
    else Lookups(log[..|log| - 1])
  }

  function Ids(items: seq<CartItem>): (ids: seq<string>)
    ensures |ids| == |items|
    ensures forall i | 0 <= i < |items| :: ids[i] == items[i].productId
  {
    if |items| == 0 then [] else Ids(items[..|items| - 1]) + [items[|items| - 1].productId]
  }

  lemma {:induction false} LookupsConcat(a: seq<Call>, b: seq<Call>)
    ensures Lookups(a + b) == Lookups(a) + Lookups(b)
    decreases |b|
  {
    if |b| == 0 {
      assert a + b == a;
    } else {
      assert (a + b)[..|a + b| - 1] == a + b[..|b| - 1];
      LookupsConcat(a, b[..|b| - 1]);
    }
  }

  lemma PriceItemLookups(env: Collaborators, item: CartItem, currency: string)
    ensures Lookups(PriceItem(env, item, currency).1) == [item.productId]
  {
    var calls := PriceItem(env, item, currency).1;
    assert Lookups([GetProduct(item.productId)]) == [item.productId] by {
      assert [GetProduct(item.productId)][..0] == [];
    }
    if |calls| == 2 {
      assert calls[..1] == [GetProduct(item.productId)];
    }
  }

  /** Every call made while pricing is a lookup or a price conversion; all succeeded, or only the last failed. */
  lemma {:induction false} PricedItemsFacts(env: Collaborators, items: seq<CartItem>, currency: string)
    ensures var run := PricedItems(env, items, currency);
      && RanksWithin(run.1, 2, 2)
      && (run.0.Success? ==> AllSucceed(env, run.1))
      && (run.0.Failure? ==> LastFails(env, run.1) && (run.0.error.ProductFailure? || run.0.error.PriceConversionFailure?))
    decreases |items|
  {
    if |items| > 0 {
      var shorter := items[..|items| - 1];
      PricedItemsFacts(env, shorter, currency);
      PriceItemFacts(env, items[|items| - 1], currency);
      var prev := PricedItems(env, shorter, currency);
      if prev.0.Success? {
        var one := PriceItem(env, items[|items| - 1], currency);
        if one.0.Failure? {
          LastFailsAfter(env, prev.1, one.1);
        }
      }
    }
  }

  /**
   * Pricing succeeds with one order item per cart item, index-aligned, each holding the
   * cart item unchanged and its converted per-unit price; it looks up every cart item
   * once, in cart order, each lookup followed by the conversion of that product's price.
   */
  lemma {:induction false} PricedItemsAligned(env: Collaborators, items: seq<CartItem>, currency: string)
    requires PricedItems(env, items, currency).0.Success?
    ensures var run := PricedItems(env, items, currency);
      && |run.0.value| == |items|
      && (forall i | 0 <= i < |items| :: run.0.value[i].item == items[i] && PricedAs(env, items[i], currency, run.0.value[i].cost))
      && |run.1| == 2 * |items|
      && (forall i | 0 <= i < |items| ::
            && run.1[2 * i] == GetProduct(items[i].productId)
            && run.1[2 * i + 1] == ConvertPrice(env.getProduct(items[i].productId).value.priceUsd, currency))
      && Lookups(run.1) == Ids(items)
    decreases |items|
  {
    if |items| > 0 {
      var shorter := items[..|items| - 1];
      var item := items[|items| - 1];
      PricedItemsAligned(env, shorter, currency);
      PriceItemFacts(env, item, currency);
      PriceItemLookups(env, item, currency);
      var prev := PricedItems(env, shorter, currency);
      var one := PriceItem(env, item, currency);
      LookupsConcat(prev.1, one.1);
      assert Ids(items) == Ids(shorter) + [item.productId];
    }
  }

  /** Pricing failed at item k: every earlier item was priced, and the items after k were never looked up. */
  predicate FailsAt(env: Collaborators, items: seq<CartItem>, currency: string, k: nat) {
    && k < |items|
    && PricedItems(env, items[..k], currency).0.Success?
    && Lookups(PricedItems(env, items, currency).1) == Ids(items[..k + 1])
    && PricedItems(env, items, currency).0.Failure?
    && PricedItems(env, items, currency).0.error in {ProductFailure(items[k].productId), PriceConversionFailure(items[k].productId)}
  }

  /** When pricing fails, it failed at one item, named by the error, and stopped there. */
  lemma {:induction false} PricedItemsFailureIsFirst(env: Collaborators, items: seq<CartItem>, currency: string)
    requires PricedItems(env, items, currency).0.Failure?
    ensures exists k :: FailsAt(env, items, currency, k)
    decreases |items|
  {
    var shorter := items[..|items| - 1];
    var prev := PricedItems(env, shorter, currency);
    if prev.0.Failure? {
      PricedItemsFailureIsFirst(env, shorter, currency);
      var k: nat :| FailsAt(env, shorter, currency, k);
      assert shorter[..k] == items[..k] && shorter[..k + 1] == items[..k + 1];
      assert PricedItems(env, items, currency) == prev;
      assert FailsAt(env, items, currency, k);
    } else {
      var k := |items| - 1;
      PricedItemsFailureAtLast(env, items, currency);
      assert FailsAt(env, items, currency, k);
    }
  }

  lemma PricedItemsFailureAtLast(env: Collaborators, items: seq<CartItem>, currency: string)
    requires |items| > 0
    requires PricedItems(env, items[..|items| - 1], currency).0.Success?
    requires PricedItems(env, items, currency).0.Failure?
    ensures FailsAt(env, items, currency, |items| - 1)
  {
    var k := |items| - 1;
    var shorter := items[..k];
    var prev := PricedItems(env, shorter, currency);
    PricedItemsAligned(env, shorter, currency);
    PriceItemFacts(env, items[k], currency);
    PriceItemLookups(env, items[k], currency);
    LookupsConcat(prev.1, PriceItem(env, items[k], currency).1);
    assert items[..k + 1] == items;
    assert Ids(items) == Ids(shorter) + [items[k].productId];
  }

  // ---------------------------------------------------------------------------
  // Lemmas about the stages

  lemma QuotedFacts(env: Collaborators, cartItems: seq<CartItem>, currency: string, address: Address)
    ensures var run := Quoted(env, cartItems, currency, address);
      && InOrder(run.1) && RanksWithin(run.1, 3, 4)
      && run.1[0] == GetQuote(address, cartItems)
      && (run.0.Success? ==> AllSucceed(env, run.1)
                             && env.getQuote(address, cartItems).Answered?
                             && env.convert(env.getQuote(address, cartItems).value, currency) == Answered(run.0.value))
      && (run.0.Failure? ==> LastFails(env, run.1))
  {
  }

  /** The preparation calls the cart, prices the items, then asks for and converts the quote. */
  lemma {:induction false} PreparedInOrder(env: Collaborators, userId: string, currency: string, address: Address)
    ensures InOrder(Prepared(env, userId, currency, address).1)
    ensures RanksWithin(Prepared(env, userId, currency, address).1, 1, 4)
  {
    if env.getCart(userId).Answered? {
      var cartItems := env.getCart(userId).value;
      var priced := PricedItems(env, cartItems, currency);
      PricedItemsFacts(env, cartItems, currency);
      ConcatInOrder([GetCart(userId)], priced.1, 2);
      if priced.0.Success? {
        var quoted := Quoted(env, cartItems, currency, address);
        QuotedFacts(env, cartItems, currency, address);
        ConcatInOrder([GetCart(userId)] + priced.1, quoted.1, 3);
      }
    }
  }

  /** A successful preparation made only successful calls; a failed one failed at its last call. */
  lemma {:induction false} PreparedOutcome(env: Collaborators, userId: string, currency: string, address: Address)
    ensures var run := Prepared(env, userId, currency, address);
      && (run.0.Success? ==> AllSucceed(env, run.1)
                             && env.getCart(userId) == Answered(run.0.value.cartItems)
                             && PricedItems(env, run.0.value.cartItems, currency).0 == Success(run.0.value.orderItems)
                             && Quoted(env, run.0.value.cartItems, currency, address).0 == Success(run.0.value.shippingCostLocalized))
      && (run.0.Failure? ==> LastFails(env, run.1) && IsPreparationFailure(run.0.error))
  {
    if env.getCart(userId).Answered? {
      var cartItems := env.getCart(userId).value;
      var priced := PricedItems(env, cartItems, currency);
      PricedItemsFacts(env, cartItems, currency);
      if priced.0.Failure? {
        LastFailsAfter(env, [GetCart(userId)], priced.1);
      } else {
        var quoted := Quoted(env, cartItems, currency, address);
        QuotedFacts(env, cartItems, currency, address);
        if quoted.0.Failure? {
          LastFailsAfter(env, [GetCart(userId)] + priced.1, quoted.1);
        }
      }
    }
  }

  /** The quote is requested for the fetched cart's items and the given address. */
  lemma {:induction false} PreparedQuotesCart(env: Collaborators, userId: string, currency: string, address: Address)
    ensures forall c | c in Prepared(env, userId, currency, address).1 && c.GetQuote? ::
      env.getCart(userId).Answered? && c == GetQuote(address, env.getCart(userId).value)
  {
    if env.getCart(userId).Answered? {
      var cartItems := env.getCart(userId).value;
      PricedItemsFacts(env, cartItems, currency);
      if PricedItems(env, cartItems, currency).0.Success? {
        QuotedFacts(env, cartItems, currency, address);
      }
    }
  }

  /** How a checkout run decomposes into its order id, its preparation and its fulfilment. */
  lemma CheckoutRunStages(env: Collaborators, req: PlaceOrderRequest)
    ensures env.newOrderId.CallFailed? ==> CheckoutRun(env, req) == (Failed(OrderIdFailure), [NewOrderId])
    ensures var prep := Prepared(env, req.userId, req.userCurrency, req.address);
      env.newOrderId.Answered? && prep.0.Failure? ==> CheckoutRun(env, req) == (Failed(prep.0.error), [NewOrderId] + prep.1)
    ensures var prep := Prepared(env, req.userId, req.userCurrency, req.address);
      env.newOrderId.Answered? && prep.0.Success? ==>
        var fin := Fulfilled(env, req, env.newOrderId.value, prep.0.value);
        CheckoutRun(env, req) == (fin.0, [NewOrderId] + prep.1 + fin.1)
    ensures !CheckoutRun(env, req).0.Failed? ==> env.newOrderId.Answered? && Prepared(env, req.userId, req.userCurrency, req.address).0.Success?
  {
  }

  /**
   * Settlement calls the charge, the shipment, the cart emptying and the confirmation, in
   * that order, each only after the previous one answered; a placed order made all four.
   */
  lemma SettledInOrder(env: Collaborators, req: PlaceOrderRequest, orderId: string, p: Preparation, total: Money)
    ensures var run := Settled(env, req, orderId, p, total);
      && InOrder(run.1) && RanksWithin(run.1, 5, 8) && |run.1| > 0
      && run.1[0] == Charge(total, req.creditCard)
      && (forall c | c in run.1 && c.ShipOrder? :: c == ShipOrder(req.address, p.cartItems))
      && (forall c | c in run.1 && c.Charge? :: c == Charge(total, req.creditCard))
    ensures var run := Settled(env, req, orderId, p, total);
      run.0.Placed? <==>
        && env.charge(total, req.creditCard).Answered?
        && env.shipOrder(req.address, p.cartItems).Answered?
        && env.emptyCart(req.userId).Answered?
    ensures var run := Settled(env, req, orderId, p, total);
      run.0.Placed? ==>
        run.1 == [Charge(total, req.creditCard), ShipOrder(req.address, p.cartItems), EmptyCart(req.userId),
                  SendOrderConfirmation(req.email, run.0.order)]
  {
    var charge := Charge(total, req.creditCard);
    var ship := ShipOrder(req.address, p.cartItems);
    var empty := EmptyCart(req.userId);
    var run := Settled(env, req, orderId, p, total);
    if env.charge(total, req.creditCard).CallFailed? {
      assert run.1 == [charge];
    } else if env.shipOrder(req.address, p.cartItems).CallFailed? {
      assert run.1 == [charge, ship];
    } else if env.emptyCart(req.userId).CallFailed? {
      assert run.1 == [charge, ship, empty];
    } else {
      assert run.1 == [charge, ship, empty, SendOrderConfirmation(req.email, run.0.order)];
    }
  }

  /** Settlement fails at its first failed call, except that the confirmation's answer is ignored. */
  lemma SettledOutcome(env: Collaborators, req: PlaceOrderRequest, orderId: string, p: Preparation, total: Money)
    ensures var run := Settled(env, req, orderId, p, total);
      && !run.0.Panic?
      && (run.0.Failed? ==> LastFails(env, run.1) && !run.1[|run.1| - 1].SendOrderConfirmation?)
      && (run.0 == Failed(ShipmentFailure) ==> run.1 == [Charge(total, req.creditCard), ShipOrder(req.address, p.cartItems)])
      && (run.0.Placed? ==> && |run.1| > 0
                            && AllSucceed(env, run.1[..|run.1| - 1])
                            && run.1[|run.1| - 1] == SendOrderConfirmation(req.email, run.0.order)
                            && env.shipOrder(req.address, p.cartItems) == Answered(run.0.order.shippingTrackingId)
                            && run.0.order == OrderResult(orderId, run.0.order.shippingTrackingId, p.shippingCostLocalized, req.address, p.orderItems))
  {
    var charge := Charge(total, req.creditCard);
    var ship := ShipOrder(req.address, p.cartItems);
    var empty := EmptyCart(req.userId);
    if env.charge(total, req.creditCard).CallFailed? {
      assert [charge][..0] == [];
    } else if env.shipOrder(req.address, p.cartItems).CallFailed? {
      assert [charge, ship][..1] == [charge];
    } else if env.emptyCart(req.userId).CallFailed? {
      assert [charge, ship, empty][..2] == [charge, ship];
    } else {
      var log := Settled(env, req, orderId, p, total).1;
      assert log[..3] == [charge, ship, empty];
    }
  }

  /** A completed preparation followed by a settlement: the calls of the whole run. */
  lemma SettledRun(env: Collaborators, req: PlaceOrderRequest)
    requires env.newOrderId.Answered?
    requires Prepared(env, req.userId, req.userCurrency, req.address).0.Success?
    requires var p := Prepared(env, req.userId, req.userCurrency, req.address).0.value;
      OrderTotal(req.userCurrency, p.shippingCostLocalized, p.orderItems).Returned?
    ensures var prep := Prepared(env, req.userId, req.userCurrency, req.address);
      var total := OrderTotal(req.userCurrency, prep.0.value.shippingCostLocalized, prep.0.value.orderItems).value;
      var fin := Settled(env, req, env.newOrderId.value, prep.0.value, total);
      CheckoutRun(env, req) == (fin.0, [NewOrderId] + prep.1 + fin.1)
  {
    CheckoutRunStages(env, req);
  }

  // ---------------------------------------------------------------------------
  // Lemmas about the whole checkout

  /** The calls of every checkout follow the fixed order of its steps, starting with the order id. */
  lemma {:induction false} StepsInOrder(env: Collaborators, req: PlaceOrderRequest)
    ensures InOrder(CheckoutRun(env, req).1)
    ensures |CheckoutRun(env, req).1| > 0 && CheckoutRun(env, req).1[0] == NewOrderId
  {
    CheckoutRunStages(env, req);
    if env.newOrderId.Answered? {
      var prep := Prepared(env, req.userId, req.userCurrency, req.address);
      PreparedInOrder(env, req.userId, req.userCurrency, req.address);
      ConcatInOrder([NewOrderId], prep.1, 1);
      if prep.0.Success? {
        var p := prep.0.value;
        var fin := Fulfilled(env, req, env.newOrderId.value, p);
        var total := OrderTotal(req.userCurrency, p.shippingCostLocalized, p.orderItems);
        if total.Panicked? {
          assert [NewOrderId] + prep.1 + fin.1 == [NewOrderId] + prep.1;
        } else {
          SettledInOrder(env, req, env.newOrderId.value, p, total.value);
          ConcatInOrder([NewOrderId] + prep.1, fin.1, 5);
        }
      }
    }
  }

  /**
   * A placed order went through every step: the order id and the preparation succeeded,
   * the total was computed, and the charge of that total, the shipment and the emptying of
   * the cart all answered. Its calls are exactly the order id, the preparation, then the
   * charge, the shipment, the cart emptying and the confirmation. Conversely, when all of
   * these answer, the order is placed.
   */
  lemma {:induction false} PlacedRunCalls(env: Collaborators, req: PlaceOrderRequest)
    ensures CheckoutRun(env, req).0.Placed? <==>
      && env.newOrderId.Answered?
      && Prepared(env, req.userId, req.userCurrency, req.address).0.Success?
      && var p := Prepared(env, req.userId, req.userCurrency, req.address).0.value;
         var total := OrderTotal(req.userCurrency, p.shippingCostLocalized, p.orderItems);
         && total.Returned?
         && env.charge(total.value, req.creditCard).Answered?
         && env.shipOrder(req.address, p.cartItems).Answered?
         && env.emptyCart(req.userId).Answered?
    ensures CheckoutRun(env, req).0.Placed? ==>
      var prep := Prepared(env, req.userId, req.userCurrency, req.address);
      var p := prep.0.value;
      var total := OrderTotal(req.userCurrency, p.shippingCostLocalized, p.orderItems).value;
      CheckoutRun(env, req).1 == [NewOrderId] + prep.1 +
        [Charge(total, req.creditCard), ShipOrder(req.address, p.cartItems), EmptyCart(req.userId),
         SendOrderConfirmation(req.email, CheckoutRun(env, req).0.order)]
  {
    CheckoutRunStages(env, req);
    if env.newOrderId.Answered? {
      var prep := Prepared(env, req.userId, req.userCurrency, req.address);
      if prep.0.Success? {
        var p := prep.0.value;
        var total := OrderTotal(req.userCurrency, p.shippingCostLocalized, p.orderItems);
        if total.Returned? {
          SettledRun(env, req);
          SettledInOrder(env, req, env.newOrderId.value, p, total.value);
        }
      }
    }
  }

  /**
   * Abort on the first failure: a failed checkout's last call is the one that failed, every
   * earlier call succeeded, and nothing was undone. A placed order made every call succeed
   * except possibly the confirmation, its last call. A panic happened after every call
   * succeeded and before any charge.
   */
  lemma {:induction false} FailureIsLastCall(env: Collaborators, req: PlaceOrderRequest)
    ensures var run := CheckoutRun(env, req);
      && (run.0.Failed? ==> LastFails(env, run.1) && !run.1[|run.1| - 1].SendOrderConfirmation?)
      && (run.0.Placed? ==> && |run.1| > 0
                            && AllSucceed(env, run.1[..|run.1| - 1])
                            && run.1[|run.1| - 1] == SendOrderConfirmation(req.email, run.0.order))
      && (run.0.Panic? ==> AllSucceed(env, run.1) && RanksWithin(run.1, 0, 4))
  {
    CheckoutRunStages(env, req);
    var run := CheckoutRun(env, req);
    if env.newOrderId.Answered? {
      var prep := Prepared(env, req.userId, req.userCurrency, req.address);
      PreparedOutcome(env, req.userId, req.userCurrency, req.address);
      PreparedInOrder(env, req.userId, req.userCurrency, req.address);
      if prep.0.Failure? {
        assert run == (Failed(prep.0.error), [NewOrderId] + prep.1);
        LastFailsAfter(env, [NewOrderId], prep.1);
        assert prep.1[|prep.1| - 1] in prep.1;
        assert ([NewOrderId] + prep.1)[|prep.1|] == prep.1[|prep.1| - 1];
      } else {
        var p := prep.0.value;
        var head := [NewOrderId] + prep.1;
        var fin := Fulfilled(env, req, env.newOrderId.value, p);
        assert run == (fin.0, head + fin.1);
        var total := OrderTotal(req.userCurrency, p.shippingCostLocalized, p.orderItems);
        if total.Panicked? {
          assert fin == (Panic(total.cause), []);
          assert run.1 == head;
        } else {
          assert fin == Settled(env, req, env.newOrderId.value, p, total.value);
          SettledOutcome(env, req, env.newOrderId.value, p, total.value);
          if fin.0.Failed? {
            LastFailsAfter(env, head, fin.1);
          } else {
            assert (head + fin.1)[..|head + fin.1| - 1] == head + fin.1[..|fin.1| - 1];
          }
        }
      }
    }
  }

  /** No compensation: when shipment fails, the successful charge before it stays; nothing follows the shipment call. */
  lemma {:induction false} ShipmentFailureKeepsCharge(env: Collaborators, req: PlaceOrderRequest)
    requires CheckoutRun(env, req).0 == Failed(ShipmentFailure)
    ensures var log := CheckoutRun(env, req).1;
      && |log| >= 2
      && log[|log| - 2].Charge? && Succeeds(env, log[|log| - 2])
      && log[|log| - 1] == ShipOrder(req.address, env.getCart(req.userId).value)
  {
    CheckoutRunStages(env, req);
    var prep := Prepared(env, req.userId, req.userCurrency, req.address);
    PreparedOutcome(env, req.userId, req.userCurrency, req.address);
    var p := prep.0.value;
    var total := OrderTotal(req.userCurrency, p.shippingCostLocalized, p.orderItems);
    assert total.Returned?;
    SettledRun(env, req);
    SettledOutcome(env, req, env.newOrderId.value, p, total.value);
  }

  lemma {:induction false} PricedItemsIgnoresConfirmation(env: Collaborators, items: seq<CartItem>, currency: string, send: (string, OrderResult) -> Reply<()>)
    ensures PricedItems(env.(sendOrderConfirmation := send), items, currency) == PricedItems(env, items, currency)
    decreases |items|
  {
    if |items| > 0 {
      PricedItemsIgnoresConfirmation(env, items[..|items| - 1], currency, send);
    }
  }

  /** The confirmation is best-effort: its answer changes neither the outcome nor the calls made. */
  lemma {:induction false} ConfirmationIsBestEffort(env: Collaborators, req: PlaceOrderRequest, send: (string, OrderResult) -> Reply<()>)
    ensures CheckoutRun(env.(sendOrderConfirmation := send), req) == CheckoutRun(env, req)
  {
    var cart := env.getCart(req.userId);
    if cart.Answered? {
      PricedItemsIgnoresConfirmation(env, cart.value, req.userCurrency, send);
    }
  }

  /**
   * A placed order carries the generated id, the shipment's tracking id, the converted
   * shipping quote, the request's address and one order item per cart item, in cart order,
   * holding the per-unit converted price.
   */
  lemma {:induction false} PlacedOrderContents(env: Collaborators, req: PlaceOrderRequest)
    requires CheckoutRun(env, req).0.Placed?
    ensures var o := CheckoutRun(env, req).0.order;
      var cart := env.getCart(req.userId).value;
      && env.getCart(req.userId).Answered?
      && o.orderId == env.newOrderId.value
      && env.shipOrder(req.address, cart) == Answered(o.shippingTrackingId)
      && env.getQuote(req.address, cart).Answered?
      && env.convert(env.getQuote(req.address, cart).value, req.userCurrency) == Answered(o.shippingCost)
      && o.shippingAddress == req.address
      && |o.items| == |cart|
      && forall i | 0 <= i < |cart| :: o.items[i].item == cart[i] && PricedAs(env, cart[i], req.userCurrency, o.items[i].cost)
  {
    CheckoutRunStages(env, req);
    var prep := Prepared(env, req.userId, req.userCurrency, req.address);
    PreparedOutcome(env, req.userId, req.userCurrency, req.address);
    var p := prep.0.value;
    QuotedFacts(env, p.cartItems, req.userCurrency, req.address);
    PricedItemsAligned(env, p.cartItems, req.userCurrency);
    var total := OrderTotal(req.userCurrency, p.shippingCostLocalized, p.orderItems);
    assert total.Returned?;
    SettledRun(env, req);
    SettledOutcome(env, req, env.newOrderId.value, p, total.value);
  }

  /** The shipping quote and the shipment are both requested for exactly the items of the fetched cart. */
  lemma {:induction false} QuoteAndShipmentUseCartItems(env: Collaborators, req: PlaceOrderRequest)
    ensures forall c | c in CheckoutRun(env, req).1 && (c.GetQuote? || c.ShipOrder?) ::
      env.getCart(req.userId).Answered? && c.items == env.getCart(req.userId).value && c.address == req.address
  {
    CheckoutRunStages(env, req);
    var log := CheckoutRun(env, req).1;
    if env.newOrderId.Answered? {
      var prep := Prepared(env, req.userId, req.userCurrency, req.address);
      PreparedQuotesCart(env, req.userId, req.userCurrency, req.address);
      PreparedInOrder(env, req.userId, req.userCurrency, req.address);
      var rest: seq<Call> := [];
      if prep.0.Success? {
        var p := prep.0.value;
        PreparedOutcome(env, req.userId, req.userCurrency, req.address);
        assert env.getCart(req.userId) == Answered(p.cartItems);
        var total := OrderTotal(req.userCurrency, p.shippingCostLocalized, p.orderItems);
        rest := Fulfilled(env, req, env.newOrderId.value, p).1;
        if total.Returned? {
          SettledInOrder(env, req, env.newOrderId.value, p, total.value);
          assert rest == Settled(env, req, env.newOrderId.value, p, total.value).1;
        } else {
          assert rest == [];
        }
        assert forall c | c in rest && c.ShipOrder? :: c == ShipOrder(req.address, p.cartItems);
        assert forall c | c in rest :: !c.GetQuote?;
      }
      assert log == [NewOrderId] + prep.1 + rest;
      forall c | c in log && (c.GetQuote? || c.ShipOrder?)
        ensures env.getCart(req.userId).Answered? && c.items == env.getCart(req.userId).value && c.address == req.address
      {
        assert c in prep.1 || c in rest;
      }
    }
  }

  /** The only charge is of the order total of the prepared items and shipping, on the request's card. */
  lemma {:induction false} ChargedAmountIsOrderTotal(env: Collaborators, req: PlaceOrderRequest)
    ensures forall c | c in CheckoutRun(env, req).1 && c.Charge? ::
      && c.card == req.creditCard
      && Prepared(env, req.userId, req.userCurrency, req.address).0.Success?
      && var p := Prepared(env, req.userId, req.userCurrency, req.address).0.value;
         OrderTotal(req.userCurrency, p.shippingCostLocalized, p.orderItems) == Returned(c.amount)
  {
    CheckoutRunStages(env, req);
    if env.newOrderId.Answered? {
      var prep := Prepared(env, req.userId, req.userCurrency, req.address);
      PreparedInOrder(env, req.userId, req.userCurrency, req.address);
      if prep.0.Success? {
        var p := prep.0.value;
        var total := OrderTotal(req.userCurrency, p.shippingCostLocalized, p.orderItems);
        if total.Returned? {
          SettledInOrder(env, req, env.newOrderId.value, p, total.value);
        }
      }
    }
  }

  /** A converted shipping cost in another currency makes the checkout panic before any charge. */
  lemma {:induction false} CurrencyMismatchPanics(env: Collaborators, req: PlaceOrderRequest)
    requires env.newOrderId.Answered?
    requires Prepared(env, req.userId, req.userCurrency, req.address).0.Success?
    requires var p := Prepared(env, req.userId, req.userCurrency, req.address).0.value;
      IsValid(p.shippingCostLocalized) && p.shippingCostLocalized.currencyCode != req.userCurrency
    ensures CheckoutRun(env, req).0 == Panic(ErrMismatchingCurrency)
    ensures forall c | c in CheckoutRun(env, req).1 :: !c.Charge?
  {
    CheckoutRunStages(env, req);
    PreparedInOrder(env, req.userId, req.userCurrency, req.address);
    var p := Prepared(env, req.userId, req.userCurrency, req.address).0.value;
    assert OrderTotal(req.userCurrency, p.shippingCostLocalized, p.orderItems) == Panicked(ErrMismatchingCurrency);
  }

  /**
   * A shipping cost with zero units and non-zero nanos becomes an invalid running total,
   * so any checkout with a non-empty cart panics before charging.
   */
  lemma {:induction false} SubUnitShippingPanics(env: Collaborators, req: PlaceOrderRequest)
    requires env.newOrderId.Answered?
    requires Prepared(env, req.userId, req.userCurrency, req.address).0.Success?
    requires var p := Prepared(env, req.userId, req.userCurrency, req.address).0.value;
      && IsValid(p.shippingCostLocalized) && p.shippingCostLocalized.currencyCode == req.userCurrency
      && p.shippingCostLocalized.units == 0 && p.shippingCostLocalized.nanos != 0
      && |p.orderItems| > 0
    ensures CheckoutRun(env, req).0.Panic?
    ensures forall c | c in CheckoutRun(env, req).1 :: !c.Charge?
  {
    CheckoutRunStages(env, req);
    PreparedInOrder(env, req.userId, req.userCurrency, req.address);
    var p := Prepared(env, req.userId, req.userCurrency, req.address).0.value;
    var s := p.shippingCostLocalized;
    SumWithZero(s, req.userCurrency);
    var start := Money(req.userCurrency, 1, s.nanos - NanosMod);
    assert !IsValid(start);
    assert OrderTotal(req.userCurrency, s, p.orderItems) == AddItemCosts(start, p.orderItems);
    assert AddItemCosts(start, p.orderItems).Panicked?;
  }

  /** Pricing stops at the first product the catalog cannot return: nothing is charged, shipped or emptied. */
  lemma {:induction false} CatalogFailureOnSecondItem(env: Collaborators, req: PlaceOrderRequest, a: CartItem, b: CartItem)
    requires env.newOrderId.Answered?
    requires env.getCart(req.userId) == Answered([a, b])
    requires env.getProduct(a.productId).Answered?
    requires env.convert(env.getProduct(a.productId).value.priceUsd, req.userCurrency).Answered?
    requires env.getProduct(b.productId).CallFailed?
    ensures CheckoutRun(env, req).0 == Failed(ProductFailure(b.productId))
    ensures forall c | c in CheckoutRun(env, req).1 :: !c.Charge? && !c.ShipOrder? && !c.EmptyCart?
  {
    CheckoutRunStages(env, req);
    var items := [a, b];
    assert items[..1] == [a] && items[..1][..0] == [];
    assert PricedItems(env, [], req.userCurrency) == (Success([]), []);
    assert PricedItems(env, [a], req.userCurrency).0.Success?;
    assert PricedItems(env, items, req.userCurrency).0 == Failure(ProductFailure(b.productId));
    PreparedInOrder(env, req.userId, req.userCurrency, req.address);
  }

  /** Items that cost nothing leave a running total unchanged. */
  lemma {:induction false} FreeItemsAddNothing(total: Money, items: seq<OrderItem>)
    requires IsValid(total) && (total.units != 0 || total.nanos == 0)
    requires forall i | 0 <= i < |items| :: items[i].cost == Money(total.currencyCode, 0, 0)
    ensures AddItemCosts(total, items) == Returned(total)
    decreases |items|
  {
    if |items| > 0 {
      var zero := Money(total.currencyCode, 0, 0);
      MultipliedZero(total.currencyCode, ToUint32(items[0].item.quantity));
      SumWithZero(total, total.currencyCode);
      SumCommutative(total, zero);
      FreeItemsAddNothing(total, items[1..]);
    }
  }

  /**
   * An item line in another currency than the running total makes the fold panic with
   * ErrMismatchingCurrency, as Must(Sum(total, multPrice)) does.
   */
  lemma ItemCurrencyMismatchPanics(total: Money, items: seq<OrderItem>, line: Money)
    requires IsValid(total) && |items| >= 1
    requires Multiplied(items[0].cost, ToUint32(items[0].item.quantity)) == Returned(line)
    requires IsValid(line) && line.currencyCode != total.currencyCode
    ensures AddItemCosts(total, items) == Panicked(ErrMismatchingCurrency)
  {
  }

  /** How many copies of the price MultiplySlow leaves: the quantity, or the price itself when it is 0. */
  function LineCount(q: Int32): nat {
    if ToUint32(q) == 0 then 1 else ToUint32(q)
  }

  /** The exact amount of the item lines: each per-unit cost times its line count. */
  function LinesValue(items: seq<OrderItem>): int
    decreases |items|
  {
    if |items| == 0 then 0 else LineCount(items[0].item.quantity) * ValueOf(items[0].cost) + LinesValue(items[1..])
  }

  /** Every cost is a whole-unit amount of the given sign in currency `c`, whose repeated sum fits in 64 bits. */
  predicate WholeUnitLines(items: seq<OrderItem>, c: string, positive: bool) {
    forall i | 0 <= i < |items| ::
      && WholeUnitsOfSign(items[i].cost, positive)
      && items[i].cost.currencyCode == c
      && ToUint32(items[i].item.quantity) * (Magnitude(items[i].cost.units, positive) + 1) <= Int64Max
  }

  /** A whole-unit amount has at least its unit count's worth of nano-units. */
  lemma UnitsWithinValue(m: Money, positive: bool)
    requires WholeUnitsOfSign(m, positive)
    ensures Magnitude(m.units, positive) * NanosMod <= Magnitude(ValueOf(m), positive)
  {
  }

  /** Whole-unit lines of one sign add up to an amount of that sign. */
  lemma {:induction false} LinesValueSign(items: seq<OrderItem>, c: string, positive: bool)
    requires WholeUnitLines(items, c, positive)
    ensures Magnitude(LinesValue(items), positive) >= 0
    decreases |items|
  {
    if |items| > 0 {
      var n := LineCount(items[0].item.quantity);
      var v := Magnitude(ValueOf(items[0].cost), positive);
      UnitsWithinValue(items[0].cost, positive);
      assert n * v >= 0;
      assert WholeUnitLines(items[1..], c, positive) by {
        forall i | 0 <= i < |items[1..]| ensures items[1..][i] == items[i + 1] { }
      }
      LinesValueSign(items[1..], c, positive);
    }
  }

  /**
   * The fold adds every item line exactly: for whole-unit costs of the running total's
   * sign and currency, whose amount stays inside the int64 unit range, it never panics
   * and returns the total plus each cost times its quantity (once when the quantity is 0).
   */
  lemma {:induction false} AddItemCostsValue(total: Money, items: seq<OrderItem>, positive: bool)
    requires WholeUnitsOfSign(total, positive)
    requires WholeUnitLines(items, total.currencyCode, positive)
    requires Magnitude(ValueOf(total) + LinesValue(items), positive) < Int64Max * NanosMod
    ensures AddItemCosts(total, items).Returned?
    ensures WholeUnitsOfSign(AddItemCosts(total, items).value, positive)
    ensures ValueOf(AddItemCosts(total, items).value) == ValueOf(total) + LinesValue(items)
    decreases |items|
  {
    if |items| > 0 {
      var m := items[0].cost;
      var n := ToUint32(items[0].item.quantity);
      MultipliedReturns(m, n);
      var line := Multiplied(m, n).value;
      assert ValueOf(line) == LineCount(items[0].item.quantity) * ValueOf(m);
      assert WholeUnitLines(items[1..], total.currencyCode, positive) by {
        forall i | 0 <= i < |items[1..]| ensures items[1..][i] == items[i + 1] { }
      }
      LinesValueSign(items[1..], total.currencyCode, positive);
      UnitsWithinValue(total, positive);
      UnitsWithinValue(line, positive);
      SumOfSameSignWholeUnits(total, line, positive);
      var next := Sum(total, line).value;
      AddItemCostsValue(next, items[1..], positive);
    }
  }

  /**
   * The order total is the shipping cost plus every item line, for whole-unit prices of
   * one sign in the user's currency whose sum fits in the int64 unit range.
   */
  lemma {:induction false} OrderTotalValue(currency: string, shipping: Money, items: seq<OrderItem>, positive: bool)
    requires WholeUnitsOfSign(shipping, positive) && shipping.currencyCode == currency
    requires WholeUnitLines(items, currency, positive)
    requires Magnitude(ValueOf(shipping) + LinesValue(items), positive) < Int64Max * NanosMod
    ensures OrderTotal(currency, shipping, items).Returned?
    ensures OrderTotal(currency, shipping, items).value.currencyCode == currency
    ensures ValueOf(OrderTotal(currency, shipping, items).value) == ValueOf(shipping) + LinesValue(items)
  {
    SumWithZero(shipping, currency);
    AddItemCostsValue(shipping, items, positive);
  }

  /** The reference fixture: zero-cost items leave the total at the shipping cost. */
  lemma ShippingDominatedTotal()
    ensures OrderTotal("USD", Money("USD", 8, 990_000_000),
      [OrderItem(CartItem("23", 1), Money("USD", 0, 0)), OrderItem(CartItem("46", 3), Money("USD", 0, 0))])
      == Returned(Money("USD", 8, 990_000_000))
  {
    var shipping := Money("USD", 8, 990_000_000);
    SumWithZero(shipping, "USD");
    FreeItemsAddNothing(shipping, [OrderItem(CartItem("23", 1), Money("USD", 0, 0)), OrderItem(CartItem("46", 3), Money("USD", 0, 0))]);
  }
}
