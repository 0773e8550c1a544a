/**
 * The cart service: carts stored per user in a Redis hash (field "cart") as JSON documents,
 * the merge of a new item into a stored cart, and the dict/object converters of its records.
 * Redis is a map from user id to the decoded document; whether Redis answers a call is a
 * parameter of each operation.
 */
module Cart {
  import opened Wrappers
  import opened Json
  import Text

  datatype CartItem = CartItem(productId: Value, quantity: Value)

  datatype Cart = Cart(userId: Value, items: seq<CartItem>)

  /** An AddItem request; `item` is None when the request has no "item" key. */
  datatype AddItemRequest = AddItemRequest(userId: Value, item: Option<CartItem>)

  datatype GetCartRequest = GetCartRequest(userId: Value)

  datatype EmptyCartRequest = EmptyCartRequest(userId: Value)

  // ---------------------------------------------------------------------------
  // Converters

  /** The keys each dict2* function tests with `in`. */
  const CartItemKeys: set<string> := {"product_id", "quantity"}
  const CartKeys: set<string> := {"user_id", "items"}
  const AddItemRequestKeys: set<string> := {"user_id", "item"}
  const UserIdKeys: set<string> := {"user_id"}

  function ItemToDict(item: CartItem): Value {
    Object(map["product_id" := item.productId, "quantity" := item.quantity])
  }

  function ItemsToDicts(items: seq<CartItem>): (ds: seq<Value>)
    ensures |ds| == |items|
    ensures forall i | 0 <= i < |items| :: ds[i] == ItemToDict(items[i])
  {
    if |items| == 0 then [] else [ItemToDict(items[0])] + ItemsToDicts(items[1..])
  }

  function CartToDict(c: Cart): Value {
    Object(map["user_id" := c.userId, "items" := List(ItemsToDicts(c.items))])
  }

  /**
   * dict2CartItem: a dict's product_id and quantity, None where absent. A string or a list
   * holding neither key reads as an empty dict; every other failure is a TypeError.
   */
  function Dict2CartItem(dic: Value): (r: Result<CartItem, PyError>)
    ensures dic.Object? ==> r.Success? && r.value.productId == Get(dic.fields, "product_id") && r.value.quantity == Get(dic.fields, "quantity")
    ensures dic.Str? || dic.List? ==>
      (r == Success(CartItem(Null, Null)) <==> Contains(dic, "product_id") == Success(false) && Contains(dic, "quantity") == Success(false))
    ensures r.Failure? <==> FieldsOf(dic, CartItemKeys).Failure?
    ensures r.Failure? ==> r.error == TypeError
  {
    match FieldsOf(dic, CartItemKeys)
    case Failure(e) => Failure(e)
    case Success(m) => Success(CartItem(Get(m, "product_id"), Get(m, "quantity")))
  }

  /** The item loop of dict2Cart: every element converted, in order, stopping at the first that fails. */
  function Dict2CartItems(elems: seq<Value>): (r: Result<seq<CartItem>, PyError>)
    ensures r.Success? ==> |r.value| == |elems|
    ensures r.Success? ==> forall i | 0 <= i < |elems| :: Dict2CartItem(elems[i]) == Success(r.value[i])
    ensures r.Failure? <==> exists i | 0 <= i < |elems| :: Dict2CartItem(elems[i]).Failure?
  {
    if |elems| == 0 then Success([])
    else
      match Dict2CartItem(elems[0])
      case Failure(e) => Failure(e)
      case Success(item) =>
        match Dict2CartItems(elems[1..])
        case Failure(e) =>
          assert forall i | 1 <= i < |elems| :: elems[i] == elems[1..][i - 1];
          Failure(e)
        case Success(rest) =>
          assert forall i | 1 <= i < |elems| :: elems[i] == elems[1..][i - 1];
          Success([item] + rest)
  }

  /** dict2Cart: user_id defaults to None and items to []; the items value is iterated. */
  function Dict2Cart(dic: Value): (r: Result<Cart, PyError>)
    ensures r.Success? ==> FieldsOf(dic, CartKeys).Success? && r.value.userId == Get(FieldsOf(dic, CartKeys).value, "user_id")
    ensures dic.Object? && "items" !in dic.fields ==> r == Success(Cart(Get(dic.fields, "user_id"), []))
    ensures dic.Object? && "items" in dic.fields && dic.fields["items"].List? ==>
      (r.Success? <==> forall i | 0 <= i < |dic.fields["items"].elems| :: Dict2CartItem(dic.fields["items"].elems[i]).Success?)
    ensures dic.Object? && "items" in dic.fields && dic.fields["items"].List? && r.Success? ==>
      |r.value.items| == |dic.fields["items"].elems|
  {
    match FieldsOf(dic, CartKeys)
    case Failure(e) => Failure(e)
    case Success(m) =>
      if "items" !in m then Success(Cart(Get(m, "user_id"), []))
      else
        match Elements(m["items"])
        case Failure(e) => Failure(e)
        case Success(elems) =>
          match Dict2CartItems(elems)
          case Failure(e) => Failure(e)
          case Success(items) => Success(Cart(Get(m, "user_id"), items))
  }

  /** dict2AddItemRequest: `item` is None without an "item" key, otherwise its dict2CartItem. */
  function Dict2AddItemRequest(dic: Value): (r: Result<AddItemRequest, PyError>)
    ensures r.Success? ==> FieldsOf(dic, AddItemRequestKeys).Success?
    ensures r.Success? ==> var m := FieldsOf(dic, AddItemRequestKeys).value;
      && r.value.userId == Get(m, "user_id")
      && (r.value.item.None? <==> "item" !in m)
      && ("item" in m ==> Dict2CartItem(m["item"]) == Success(r.value.item.value))
    ensures r.Failure? <==> (FieldsOf(dic, AddItemRequestKeys).Failure?
      || ("item" in FieldsOf(dic, AddItemRequestKeys).value && Dict2CartItem(FieldsOf(dic, AddItemRequestKeys).value["item"]).Failure?))
  {
    match FieldsOf(dic, AddItemRequestKeys)
    case Failure(e) => Failure(e)
    case Success(m) =>
      if "item" !in m then Success(AddItemRequest(Get(m, "user_id"), None))
      else
        match Dict2CartItem(m["item"])
        case Failure(e) => Failure(e)
        case Success(item) => Success(AddItemRequest(Get(m, "user_id"), Some(item)))
  }

  function Dict2GetCartRequest(dic: Value): (r: Result<GetCartRequest, PyError>)
    ensures r.Success? <==> FieldsOf(dic, UserIdKeys).Success?
    ensures r.Success? ==> r.value.userId == Get(FieldsOf(dic, UserIdKeys).value, "user_id")
  {
    match FieldsOf(dic, UserIdKeys)
    case Failure(e) => Failure(e)
    case Success(m) => Success(GetCartRequest(Get(m, "user_id")))
  }

  function Dict2EmptyCartRequest(dic: Value): (r: Result<EmptyCartRequest, PyError>)
    ensures r.Success? <==> FieldsOf(dic, UserIdKeys).Success?
    ensures r.Success? ==> r.value.userId == Get(FieldsOf(dic, UserIdKeys).value, "user_id")
  {
    match FieldsOf(dic, UserIdKeys)
    case Failure(e) => Failure(e)
    case Success(m) => Success(EmptyCartRequest(Get(m, "user_id")))
  }

  // ---------------------------------------------------------------------------
  // Merging an item into a cart

  /** The index of the first cart item with the given product id, if any. */
  function IndexOfProduct(items: seq<CartItem>, productId: Value): (r: Option<nat>)
    ensures r.Some? ==> r.value < |items| && items[r.value].productId == productId
    ensures r.Some? ==> forall j | 0 <= j < r.value :: items[j].productId != productId
    ensures r.None? <==> forall j | 0 <= j < |items| :: items[j].productId != productId
  {
    if |items| == 0 then None
    else if items[0].productId == productId then Some(0)
    else
      match IndexOfProduct(items[1..], productId)
      case None =>
        assert forall j | 1 <= j < |items| :: items[j] == items[1..][j - 1];
        None
      case Some(k) =>
        assert forall j | 1 <= j < k + 1 :: items[j] == items[1..][j - 1];
        Some(k + 1)
  }

  /**
   * Python's `a += b` on JSON values: integers add, strings concatenate, a list is extended
   * by a list's elements or a string's characters, and anything else raises TypeError.
   */
  function PlusEq(a: Value, b: Value): (r: Result<Value, PyError>)
    ensures r.Success? <==> (a.Int? && b.Int?) || (a.Str? && b.Str?) || (a.List? && (b.List? || b.Str?))
    ensures r.Failure? ==> r.error == TypeError
    ensures r.Success? ==> r.value.Int? == a.Int? && r.value.Str? == a.Str? && r.value.List? == a.List?
    ensures a.Int? && b.Int? ==> r.value.i == a.i + b.i
    ensures a.List? && r.Success? ==>
      |r.value.elems| == |a.elems| + (if b.List? then |b.elems| else |b.s|) && r.value.elems[..|a.elems|] == a.elems
  {
    match (a, b)
    case (Int(x), Int(y)) => Success(Int(x + y))
    case (Str(x), Str(y)) => Success(Str(x + y))
    case (List(x), List(y)) => Success(List(x + y))
    case (List(x), Str(y)) => Success(List(x + Chars(y)))
    case _ => Failure(TypeError)
  }

  /** The cart after adding `item`: its quantity goes to the first item of the same product, or it is appended. */
  function Merge(c: Cart, item: CartItem): (r: Result<Cart, PyError>)
    ensures r.Failure? ==> IndexOfProduct(c.items, item.productId).Some? && r.error == TypeError
    ensures r.Success? ==> r.value.userId == c.userId
    ensures r.Success? ==> |r.value.items| == |c.items| + (if IndexOfProduct(c.items, item.productId).None? then 1 else 0)
    ensures r.Success? ==> exists j | 0 <= j < |r.value.items| :: r.value.items[j].productId == item.productId
  {
    match IndexOfProduct(c.items, item.productId)
    case None =>
      var items := c.items + [item];
      assert items[|c.items|].productId == item.productId;
      Success(c.(items := items))
    case Some(i) =>
      match PlusEq(c.items[i].quantity, item.quantity)
      case Failure(e) => Failure(e)
      case Success(q) =>
        var items := c.items[i := c.items[i].(quantity := q)];
        assert items[i].productId == item.productId;
        Success(c.(items := items))
  }

  /** The cart addItem stores: a fresh cart for a new user, the merged cart otherwise. */
  function AddedCart(stored: Option<Cart>, req: AddItemRequest): (r: Result<Cart, PyError>)
    ensures req.item.None? ==> r == Failure(AttributeError)
    ensures r.Success? ==> r.value.userId == if stored.Some? then stored.value.userId else req.userId
    ensures r.Success? ==> exists j | 0 <= j < |r.value.items| :: r.value.items[j].productId == req.item.value.productId
    ensures stored.None? && req.item.Some? ==> r == Success(Cart(req.userId, [req.item.value]))
    ensures stored.Some? && req.item.Some? && r.Failure? ==> r.error == TypeError
  {
    match req.item
    case None => Failure(AttributeError)
    case Some(item) =>
      match stored
      case None =>
        assert [item][0].productId == item.productId;
        Success(Cart(req.userId, [item]))
      case Some(c) => Merge(c, item)
  }

  /** Every stored document decodes to a cart. */
  predicate Decodable(store: map<string, Value>) {
    forall u | u in store :: Dict2Cart(store[u]).Success?
  }

  function StoredCart(store: map<string, Value>, userId: string): Option<Cart>
    requires Decodable(store)
  {
    if userId in store then Some(Dict2Cart(store[userId]).value) else None
  }

  // ---------------------------------------------------------------------------
  // The service

  class CartService {
    /** Each user's Redis hash field "cart", as the JSON document stored in it. */
    var store: map<string, Value>

    ghost predicate Valid()
      reads this
    {
      Decodable(store)
    }

    constructor()
      ensures store == map[] && Valid()
    {
      store := map[];
    }

    /**
     * addItem: a non-string user id fails the log line with a TypeError; an unreachable
     * Redis leaves the store as it was; otherwise the merged cart is written back, or the
     * error raised while merging leaves the store as it was.
     */
    method AddItem(req: AddItemRequest, reachable: bool) returns (raised: Option<PyError>)
      requires Valid()
      modifies this
      ensures Valid()
      ensures !req.userId.Str? ==> raised == Some(TypeError) && store == old(store)
      ensures req.userId.Str? && !reachable ==> raised == None && store == old(store)
      ensures req.userId.Str? && reachable ==>
        match AddedCart(StoredCart(old(store), req.userId.s), req)
        case Success(c) => raised == None && store == old(store)[req.userId.s := CartToDict(c)]
        case Failure(e) => raised == Some(e) && store == old(store)
    {
      if !req.userId.Str? {
        return Some(TypeError);
      }
      if !reachable {
        return None;
      }
      var userId := req.userId.s;
      var cart: Cart;
      if userId in store {
        var stored := Dict2Cart(store[userId]).value;
        assert StoredCart(store, userId) == Some(stored);
        cart := stored;
        if req.item.None? {
          return Some(AttributeError);
        }
        var item := req.item.value;
        var existing := -1;
        var i := 0;
        while i < |cart.items|
          invariant 0 <= i <= |cart.items|
          invariant existing == -1
          invariant forall j | 0 <= j < i :: cart.items[j].productId != item.productId
        {
          if item.productId == cart.items[i].productId {
            existing := i;
            break;
          }
          i := i + 1;
        }
        if existing == -1 {
          assert IndexOfProduct(stored.items, item.productId).None?;
          cart := cart.(items := cart.items + [item]);
          assert AddedCart(Some(stored), req) == Success(cart);
        } else {
          assert IndexOfProduct(stored.items, item.productId) == Some(existing as nat);
          var quantity := PlusEq(cart.items[existing].quantity, item.quantity);
          if quantity.Failure? {
            assert AddedCart(Some(stored), req) == Failure(quantity.error);
            return Some(quantity.error);
          }
          cart := cart.(items := cart.items[existing := cart.items[existing].(quantity := quantity.value)]);
          assert AddedCart(Some(stored), req) == Success(cart);
        }
      } else {
        if req.item.None? {
          return Some(AttributeError);
        }
        cart := Cart(req.userId, [req.item.value]);
      }
      CartRoundTrip(cart);
      store := store[userId := CartToDict(cart)];
      raised := None;
    }

    /** getCart: the stored cart, or Cart(None, []) when nothing is stored or Redis is unreachable. */
    method GetCart(req: GetCartRequest, reachable: bool) returns (r: Result<Cart, PyError>)
      requires Valid()
      ensures !req.userId.Str? ==> r == Failure(TypeError)
      ensures req.userId.Str? && (!reachable || req.userId.s !in store) ==> r == Success(Cart(Null, []))
      ensures req.userId.Str? && reachable && req.userId.s in store ==> r == Success(Dict2Cart(store[req.userId.s]).value)
    {
      if !req.userId.Str? {
        return Failure(TypeError);
      }
      if !reachable || req.userId.s !in store {
        return Success(Cart(Null, []));
      }
      r := Success(Dict2Cart(store[req.userId.s]).value);
    }

    /** emptyCart: deletes the user's cart field, unless Redis is unreachable. */
    method EmptyCart(req: EmptyCartRequest, reachable: bool) returns (raised: Option<PyError>)
      requires Valid()
      modifies this
      ensures Valid()
      ensures !req.userId.Str? ==> raised == Some(TypeError) && store == old(store)
      ensures req.userId.Str? ==> raised == None && store == if reachable then old(store) - {req.userId.s} else old(store)
    {
      if !req.userId.Str? {
        return Some(TypeError);
      }
      if reachable {
        store := store - {req.userId.s};
      }
      raised := None;
    }
  }

  // ---------------------------------------------------------------------------
  // Lemmas

  lemma {:induction false} ItemsRoundTrip(items: seq<CartItem>)
    ensures Dict2CartItems(ItemsToDicts(items)) == Success(items)
  {
    if |items| > 0 {
      ItemsRoundTrip(items[1..]);
      assert ItemsToDicts(items)[1..] == ItemsToDicts(items[1..]);
      assert [items[0]] + items[1..] == items;
    }
  }

  /** dict2Cart(c.toDict()) gives back the same user id and the same items, in order. */
  lemma CartRoundTrip(c: Cart)
    ensures Dict2Cart(CartToDict(c)) == Success(c)
  {
    ItemsRoundTrip(c.items);
  }

  /** Missing keys default to None, and a missing item list to []. */
  lemma Dict2CartDefaults(m: map<string, Value>)
    ensures "user_id" !in m && "items" !in m ==> Dict2Cart(Object(m)) == Success(Cart(Null, []))
    ensures "user_id" !in m && Dict2Cart(Object(m)).Success? ==> Dict2Cart(Object(m)).value.userId == Null
    ensures "product_id" !in m ==> Dict2CartItem(Object(m)).value.productId == Null
    ensures "quantity" !in m ==> Dict2CartItem(Object(m)).value.quantity == Null
  {
  }

  /** An item given as a string holding neither key is read as CartItem(None, None), as Python's `in` does. */
  lemma StringItemReadsAsEmpty(userId: string)
    ensures Dict2AddItemRequest(Object(map["user_id" := Str(userId), "item" := Str("abc")]))
      == Success(AddItemRequest(Str(userId), Some(CartItem(Null, Null))))
  {
    ShortStringHasNoFields("abc", CartItemKeys);
    var m := map["user_id" := Str(userId), "item" := Str("abc")];
    assert FieldsOf(Object(m), AddItemRequestKeys) == Success(m);
    assert Dict2CartItem(Str("abc")) == Success(CartItem(Null, Null));
  }

  /** A string that contains a key cannot be indexed by it: dict2CartItem raises TypeError. */
  lemma StringHoldingKeyRaises()
    ensures Dict2CartItem(Str("product_id")) == Failure(TypeError)
  {
    assert Text.Contains("product_id", "product_id");
  }

  /** An items value that is a string is iterated by character, and each character reads as an empty item. */
  lemma {:induction false} StringItemsReadAsEmptyLines(userId: Value, s: string)
    ensures Dict2Cart(Object(map["user_id" := userId, "items" := Str(s)]))
      == Success(Cart(userId, seq(|s|, _ => CartItem(Null, Null))))
  {
    var elems := Chars(s);
    forall i | 0 <= i < |elems|
      ensures Dict2CartItem(elems[i]) == Success(CartItem(Null, Null))
    {
      ShortStringHasNoFields([s[i]], CartItemKeys);
    }
    var items := Dict2CartItems(elems).value;
    assert items == seq(|s|, _ => CartItem(Null, Null));
  }

  /** A product not yet in the cart is appended after the existing items, which keep their order. */
  lemma MergeAppendsNewProduct(c: Cart, item: CartItem)
    requires forall j | 0 <= j < |c.items| :: c.items[j].productId != item.productId
    ensures Merge(c, item).Success?
    ensures var m := Merge(c, item).value;
      && m.userId == c.userId
      && |m.items| == |c.items| + 1
      && m.items[..|c.items|] == c.items
      && m.items[|c.items|] == item
  {
    assert IndexOfProduct(c.items, item.productId).None?;
  }

  /**
   * A product already in the cart adds the new quantity to its first occurrence; the
   * length and every other item stay as they were.
   */
  lemma MergeAddsToFirstMatch(c: Cart, item: CartItem, i: nat, a: int, b: int)
    requires i < |c.items| && c.items[i].productId == item.productId
    requires forall j | 0 <= j < i :: c.items[j].productId != item.productId
    requires c.items[i].quantity == Int(a) && item.quantity == Int(b)
    ensures Merge(c, item).Success?
    ensures var m := Merge(c, item).value;
      && m.userId == c.userId
      && |m.items| == |c.items|
      && m.items[i] == CartItem(item.productId, Int(a + b))
      && forall j | 0 <= j < |c.items| && j != i :: m.items[j] == c.items[j]
  {
    assert IndexOfProduct(c.items, item.productId) == Some(i);
  }

  /** Adding to a quantity that cannot be added to raises, and the cart is not written. */
  lemma MergeRejectsMismatchedQuantity(c: Cart, item: CartItem, i: nat)
    requires i < |c.items| && c.items[i].productId == item.productId
    requires forall j | 0 <= j < i :: c.items[j].productId != item.productId
    requires c.items[i].quantity == Null
    ensures Merge(c, item) == Failure(TypeError)
  {
    assert IndexOfProduct(c.items, item.productId) == Some(i);
  }

  /** The product ids in a cart. */
  function ProductIds(items: seq<CartItem>): set<Value> {
    set j | 0 <= j < |items| :: items[j].productId
  }

  /** Each product appears at most once. */
  predicate DistinctProducts(items: seq<CartItem>) {
    forall j, k | 0 <= j < k < |items| :: items[j].productId != items[k].productId
  }

  /** Merging adds the item's product to the cart's products and keeps every product at most once. */
  lemma MergeKeepsProductsDistinct(c: Cart, item: CartItem)
    requires DistinctProducts(c.items)
    requires Merge(c, item).Success?
    ensures DistinctProducts(Merge(c, item).value.items)
    ensures ProductIds(Merge(c, item).value.items) == ProductIds(c.items) + {item.productId}
  {
    var m := Merge(c, item).value;
    match IndexOfProduct(c.items, item.productId)
    case None =>
      assert m.items == c.items + [item];
      forall x | x in ProductIds(m.items)
        ensures x in ProductIds(c.items) + {item.productId}
      {
        var j :| 0 <= j < |m.items| && m.items[j].productId == x;
        if j < |c.items| {
          assert m.items[j] == c.items[j];
        }
      }
      forall x | x in ProductIds(c.items)
        ensures x in ProductIds(m.items)
      {
        var j :| 0 <= j < |c.items| && c.items[j].productId == x;
        assert m.items[j] == c.items[j];
      }
      assert m.items[|c.items|].productId == item.productId;
    case Some(i) =>
      assert forall j | 0 <= j < |m.items| :: m.items[j].productId == c.items[j].productId;
      assert c.items[i].productId == item.productId;
  }

  /** A user with no stored cart gets a cart holding just the new item. */
  lemma NewUserGetsSingleItemCart(req: AddItemRequest)
    requires req.item.Some?
    ensures AddedCart(None, req) == Success(Cart(req.userId, [req.item.value]))
  {
  }

  /** A request without an item never changes the stored cart. */
  lemma MissingItemRaises(stored: Option<Cart>, req: AddItemRequest)
    requires req.item.None?
    ensures AddedCart(stored, req) == Failure(AttributeError)
  {
  }

  /** Adding 2 shoes, then 3 more, leaves one line of 5 shoes. */
  method AddTwiceScenario(userId: string) returns (r: Result<Cart, PyError>)
    ensures r == Success(Cart(Str(userId), [CartItem(Str("shoes"), Int(5))]))
  {
    var svc := new CartService();
    var reachable := true;
    var raised := svc.AddItem(AddItemRequest(Str(userId), Some(CartItem(Str("shoes"), Int(2)))), reachable);
    CartRoundTrip(Cart(Str(userId), [CartItem(Str("shoes"), Int(2))]));
    raised := svc.AddItem(AddItemRequest(Str(userId), Some(CartItem(Str("shoes"), Int(3)))), reachable);
    MergeAddsToFirstMatch(Cart(Str(userId), [CartItem(Str("shoes"), Int(2))]), CartItem(Str("shoes"), Int(3)), 0, 2, 3);
    var expected := Cart(Str(userId), [CartItem(Str("shoes"), Int(5))]);
    var merged := Merge(Cart(Str(userId), [CartItem(Str("shoes"), Int(2))]), CartItem(Str("shoes"), Int(3))).value;
    assert merged.items == expected.items;
    assert Merge(Cart(Str(userId), [CartItem(Str("shoes"), Int(2))]), CartItem(Str("shoes"), Int(3))) == Success(expected);
    CartRoundTrip(expected);
    r := svc.GetCart(GetCartRequest(Str(userId)), reachable);
  }

  /** After emptyCart, getCart returns the empty Cart(None, []), whether or not the store was reachable. */
  method EmptyThenGetScenario(svc: CartService, userId: string, reachable: bool) returns (r: Result<Cart, PyError>)
    requires svc.Valid()
    modifies svc
    ensures r == Success(Cart(Null, []))
  {
    var raised := svc.EmptyCart(EmptyCartRequest(Str(userId)), reachable);
    r := svc.GetCart(GetCartRequest(Str(userId)), reachable);
  }
}
