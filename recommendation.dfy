/**
 * The recommendation service: the catalog's product ids minus the ids in the request,
 * at most five of them, sampled without replacement. The iteration order of the set
 * of eligible ids and the sampled indices are inputs.
 */
module Recommendation {
  import opened Wrappers
  import opened Json

  /** At most this many ids are recommended. */
  const MaxResponses: int := 5

  datatype Money = Money(currencyCode: Value, units: Value, nanos: Value)

  datatype Product = Product(
    id: Value,
    name: Value,
    description: Value,
    picture: Value,
    priceUsd: Option<Money>,
    categories: Value)

  datatype ListProductsResponse = ListProductsResponse(products: seq<Product>)
  datatype ListRecommendationsRequest = ListRecommendationsRequest(userId: Value, productIds: Value)
  datatype ListRecommendationsResponse = ListRecommendationsResponse(productIds: Value)

  /**
   * Where the catalog comes from: the built-in fake, or the catalog service, whose reply
   * is the decoded JSON body or `None` when the request or the decoding raised.
   */
  datatype Client = Fake | Real(reply: Option<Value>)

  /** No catalog host (None or "") selects the fake catalog. */
  function ClientFor(host: Value, reply: Option<Value>): (c: Client)
    ensures c == Fake <==> host == Null || host == Str("")
  {
    if host == Null || host == Str("") then Fake else Real(reply)
  }

  // ---- serialisers ----

  function MoneyToDict(m: Money): (v: Value)
    ensures v.Object? && v.fields.Keys == {"currency_code", "units", "nanos"}
  {
    Object(map["currency_code" := m.currencyCode, "units" := m.units, "nanos" := m.nanos])
  }

  /** The keys each dict2* function tests with `in`. */
  const MoneyKeys: set<string> := {"currency_code", "units", "nanos"}
  const ProductKeys: set<string> := {"id", "name", "description", "picture", "price_usd", "categories"}
  const ProductsResponseKeys: set<string> := {"products"}

  function Dict2Money(fields: map<string, Value>): Money
  {
    Money(Get(fields, "currency_code"), Get(fields, "units"), Get(fields, "nanos"))
  }

  /** Product.toDict: calling toDict on a missing price raises AttributeError. */
  function ProductToDict(p: Product): (r: Result<Value, PyError>)
    ensures r.Failure? <==> p.priceUsd.None?
  {
    match p.priceUsd {
      case None => Failure(AttributeError)
      case Some(price) =>
        Success(Object(map[
          "id" := p.id, "name" := p.name, "description" := p.description,
          "picture" := p.picture, "price_usd" := MoneyToDict(price),
          "categories" := p.categories]))
    }
  }

  /** dict2Product: absent keys become None; the price is read with dict2Money. */
  function Dict2Product(fields: map<string, Value>): (r: Result<Product, PyError>)
    ensures "price_usd" !in fields ==> r.Success? && r.value.priceUsd == None
    ensures r.Success? <==> "price_usd" !in fields || FieldsOf(fields["price_usd"], MoneyKeys).Success?
    ensures r.Success? && "price_usd" in fields ==> r.value.priceUsd == Some(Dict2Money(FieldsOf(fields["price_usd"], MoneyKeys).value))
    ensures r.Success? ==> r.value.id == Get(fields, "id") && r.value.categories == Get(fields, "categories")
  {
    var price: Result<Option<Money>, PyError> :=
      if "price_usd" !in fields then Success(None)
      else match FieldsOf(fields["price_usd"], MoneyKeys) {
        case Success(f) => Success(Some(Dict2Money(f)))
        case Failure(e) => Failure(e)
      };
    if price.Failure? then Failure(TypeError)
    else
      Success(Product(Get(fields, "id"), Get(fields, "name"), Get(fields, "description"),
                      Get(fields, "picture"), price.value, Get(fields, "categories")))
  }

  /** One element of the `products` list, read with dict2Product. */
  function DecodeProduct(v: Value): Result<Product, PyError>
  {
    match FieldsOf(v, ProductKeys) {
      case Success(f) => Dict2Product(f)
      case Failure(e) => Failure(e)
    }
  }

  /** The products of a list, decoded front to back; the first bad element raises. */
  function DecodeAll(elems: seq<Value>): Result<seq<Product>, PyError>
  {
    if |elems| == 0 then Success([])
    else
      var front := DecodeAll(elems[..|elems| - 1]);
      if front.Failure? then front
      else
        var last := DecodeProduct(elems[|elems| - 1]);
        if last.Failure? then Failure(last.error) else Success(front.value + [last.value])
  }

  /** The products of a list, encoded front to back; the first missing price raises. */
  function EncodeAll(products: seq<Product>): Result<seq<Value>, PyError>
  {
    if |products| == 0 then Success([])
    else
      var front := EncodeAll(products[..|products| - 1]);
      if front.Failure? then front
      else
        var last := ProductToDict(products[|products| - 1]);
        if last.Failure? then Failure(last.error) else Success(front.value + [last.value])
  }

  /** dict2ListProductsResponse: no `products` key gives the empty list. */
  function ProductsFromDict(fields: map<string, Value>): Result<ListProductsResponse, PyError>
  {
    if "products" !in fields then Success(ListProductsResponse([]))
    else match Elements(fields["products"]) {
      case Success(elems) =>
        var ps := DecodeAll(elems);
        if ps.Failure? then Failure(ps.error) else Success(ListProductsResponse(ps.value))
      case Failure(e) => Failure(e)
    }
  }

  /** dict2ListProductsResponse, appending one decoded product at a time. */
  method Dict2ListProductsResponse(fields: map<string, Value>) returns (r: Result<ListProductsResponse, PyError>)
    ensures r == ProductsFromDict(fields)
  {
    var products: seq<Product> := [];
    if "products" in fields {
      match Elements(fields["products"]) {
        case Success(elems) =>
          var i := 0;
          while i < |elems|
            invariant 0 <= i <= |elems|
            invariant DecodeAll(elems[..i]) == Success(products)
          {
            assert elems[..i + 1][..i] == elems[..i];
            var p := DecodeProduct(elems[i]);
            if p.Failure? {
              DecodeFailureSticks(elems, i + 1);
              return Failure(p.error);
            }
            products := products + [p.value];
            i := i + 1;
          }
          assert elems[..i] == elems;
        case Failure(e) =>
          return Failure(e);
      }
    }
    r := Success(ListProductsResponse(products));
  }

  /** ListProductsResponse.toDict, appending one encoded product at a time. */
  method ListProductsResponseToDict(resp: ListProductsResponse) returns (r: Result<Value, PyError>)
    ensures EncodeAll(resp.products).Failure? ==> r == Failure(EncodeAll(resp.products).error)
    ensures EncodeAll(resp.products).Success? ==>
      r == Success(Object(map["products" := List(EncodeAll(resp.products).value)]))
  {
    var arr: seq<Value> := [];
    var i := 0;
    while i < |resp.products|
      invariant 0 <= i <= |resp.products|
      invariant EncodeAll(resp.products[..i]) == Success(arr)
    {
      assert resp.products[..i + 1][..i] == resp.products[..i];
      var d := ProductToDict(resp.products[i]);
      if d.Failure? {
        EncodeFailureSticks(resp.products, i + 1);
        return Failure(d.error);
      }
      arr := arr + [d.value];
      i := i + 1;
    }
    assert resp.products[..i] == resp.products;
    r := Success(Object(map["products" := List(arr)]));
  }

  function RequestToDict(req: ListRecommendationsRequest): Value
  {
    Object(map["user_id" := req.userId, "product_ids" := req.productIds])
  }

  function Dict2ListRecommendationsRequest(fields: map<string, Value>): ListRecommendationsRequest
  {
    ListRecommendationsRequest(Get(fields, "user_id"), Get(fields, "product_ids"))
  }

  function ResponseToDict(resp: ListRecommendationsResponse): Value
  {
    Object(map["product_ids" := resp.productIds])
  }

  function Dict2ListRecommendationsResponse(fields: map<string, Value>): ListRecommendationsResponse
  {
    ListRecommendationsResponse(Get(fields, "product_ids"))
  }

  // ---- the catalog ----

  /** The four products of the fake catalog. */
  function FakeProducts(): seq<Product>
  {
    [
      Product(Str("OLJCESPC7Z"), Str("Sunglasses"),
        Str("Add a modern touch to your outfits with these sleek aviator sunglasses."),
        Str("/static/img/products/sunglasses.jpg"),
        Some(Money(Str("USD"), Int(19), Int(990000000))), List([Str("accessories")])),
      Product(Str("66VCHSJNUP"), Str("Tank Top"),
        Str("Perfectly cropped cotton tank, with a scooped neckline."),
        Str("/static/img/products/tank-top.jpg"),
        Some(Money(Str("USD"), Int(18), Int(990000000))), List([Str("clothing"), Str("tops")])),
      Product(Str("1YMWWN1N4O"), Str("Watch"),
        Str("This gold-tone stainless steel watch will work with most of your outfits."),
        Str("/static/img/products/watch.jpg"),
        Some(Money(Str("USD"), Int(109), Int(990000000))), List([Str("accessories")])),
      Product(Str("L9ECAV7KIM"), Str("Loafers"),
        Str("A neat addition to your summer wardrobe."),
        Str("/static/img/products/loafers.jpg"),
        Some(Money(Str("USD"), Int(89), Int(990000000))), List([Str("footwear")]))
    ]
  }

  /** listProducts of each client: any failure of the real one yields no products. */
  function Catalog(client: Client): seq<Product>
  {
    match client {
      case Fake => FakeProducts()
      case Real(None) => []
      case Real(Some(body)) =>
        match FieldsOf(body, ProductsResponseKeys) {
          case Success(fields) =>
            var resp := ProductsFromDict(fields);
            if resp.Success? then resp.value.products else []
          case Failure(_) => []
        }
    }
  }

  // ---- listRecommendations ----

  /** Python can put the value in a set. */
  predicate Hashable(v: Value)
  {
    v.Null? || v.Int? || v.Str?
  }

  /** Python's set(v) for the request's product ids. */
  function AsSet(v: Value): (r: Result<set<Value>, PyError>)
    ensures r.Success? <==>
      v.Str? || v.Object? || (v.List? && forall i :: 0 <= i < |v.elems| ==> Hashable(v.elems[i]))
    ensures r.Success? ==> forall x | x in r.value :: Hashable(x)
    ensures v.List? && r.Success? ==> forall x :: x in r.value <==> x in v.elems
    ensures v.Object? ==> forall k :: Str(k) in r.value <==> k in v.fields
    ensures v.Str? ==> forall x | x in r.value :: x.Str? && |x.s| == 1 && x.s[0] in v.s
    ensures v.Str? ==> forall i :: 0 <= i < |v.s| ==> Str([v.s[i]]) in r.value
    ensures v.Object? ==> forall x | x in r.value :: x.Str? && x.s in v.fields
  {
    match v {
      case List(elems) =>
        if forall i :: 0 <= i < |elems| ==> Hashable(elems[i])
        then Success(set i | 0 <= i < |elems| :: elems[i])
        else Failure(TypeError)
      case Str(s) => Success(set i | 0 <= i < |s| :: Str([s[i]]))
      case Object(fields) => Success(set k | k in fields :: Str(k))
      case _ => Failure(TypeError)
    }
  }

  /** The catalog ids the request does not name, or the TypeError of building the sets. */
  function Eligible(products: seq<Product>, req: ListRecommendationsRequest): (r: Result<set<Value>, PyError>)
    ensures r.Success? <==>
      (forall i :: 0 <= i < |products| ==> Hashable(products[i].id)) && AsSet(req.productIds).Success?
    ensures r.Success? ==> forall i :: 0 <= i < |products| ==>
      (products[i].id in r.value <==> products[i].id !in AsSet(req.productIds).value)
    ensures r.Success? ==> forall x | x in r.value :: exists i :: 0 <= i < |products| && products[i].id == x
  {
    if !(forall i :: 0 <= i < |products| ==> Hashable(products[i].id)) then Failure(TypeError)
    else
      var requested := AsSet(req.productIds);
      if requested.Failure? then Failure(TypeError)
      else Success((set i | 0 <= i < |products| :: products[i].id) - requested.value)
  }

  predicate Distinct<T(==)>(s: seq<T>)
  {
    forall i, j :: 0 <= i < j < |s| ==> s[i] != s[j]
  }

  /** `order` lists the set's elements, each once: one iteration order of a Python set. */
  predicate IsEnumeration<T(==)>(order: seq<T>, s: set<T>)
  {
    (forall x :: x in order ==> x in s) && (forall x :: x in s ==> x in order) && Distinct(order)
  }

  /** random.sample(range(n), k): k distinct indices below n. */
  predicate IsSample(indices: seq<int>, n: int, k: int)
  {
    |indices| == k && (forall j :: 0 <= j < |indices| ==> 0 <= indices[j] < n) && Distinct(indices)
  }

  function Min(a: int, b: int): int
  {
    if a <= b then a else b
  }

  /** The inputs a run of listRecommendations draws on its own: set order and sample. */
  predicate ChoicesFit(client: Client, req: ListRecommendationsRequest, order: seq<Value>, indices: seq<int>)
  {
    var eligible := Eligible(Catalog(client), req);
    eligible.Success? ==>
      IsEnumeration(order, eligible.value) && IsSample(indices, |order|, Min(MaxResponses, |order|))
  }

  /**
   * listRecommendations. Building the log line needs a string user id; the eligible ids
   * are enumerated in `order` and `indices` is the sample taken from them.
   */
  function ListRecommendations(client: Client, req: ListRecommendationsRequest,
                               order: seq<Value>, indices: seq<int>): (r: Result<ListRecommendationsResponse, PyError>)
    requires ChoicesFit(client, req, order, indices)
    ensures r.Failure? <==> !req.userId.Str? || Eligible(Catalog(client), req).Failure?
    ensures r.Failure? ==> r.error == TypeError
    ensures r.Success? ==>
      r.value.productIds.List? && |r.value.productIds.elems| == |indices|
      && forall x | x in r.value.productIds.elems :: x in Eligible(Catalog(client), req).value
  {
    if !req.userId.Str? then Failure(TypeError)
    else
      var eligible := Eligible(Catalog(client), req);
      if eligible.Failure? then Failure(TypeError)
      else Success(ListRecommendationsResponse(List(Picked(order, indices))))
  }

  /** [filtered_products[i] for i in indices] */
  function Picked(order: seq<Value>, indices: seq<int>): (r: seq<Value>)
    requires forall j :: 0 <= j < |indices| ==> 0 <= indices[j] < |order|
    ensures |r| == |indices|
    ensures forall j :: 0 <= j < |indices| ==> r[j] == order[indices[j]]
    ensures forall x | x in r :: x in order
    ensures Distinct(order) && Distinct(indices) ==> Distinct(r)
  {
    seq(|indices|, j requires 0 <= j < |indices| => order[indices[j]])
  }

  // ---- properties ----

  /** A list of distinct elements is as long as the set of its elements is large. */
  lemma {:induction false} DistinctCard<T>(s: seq<T>)
    requires Distinct(s)
    ensures |set x | x in s| == |s|
  {
    if |s| != 0 {
      var front := s[..|s| - 1];
      DistinctCard(front);
      assert (set x | x in s) == (set x | x in front) + {s[|s| - 1]};
      assert s[|s| - 1] !in front;
    }
  }

  /** An enumeration of a set is as long as the set is large. */
  lemma EnumerationLength<T>(order: seq<T>, s: set<T>)
    requires IsEnumeration(order, s)
    ensures |order| == |s|
  {
    DistinctCard(order);
    assert (set x | x in order) == s;
  }

  /** The indices 0 .. n-1 in ascending order. */
  function Range(n: nat): (r: seq<int>)
    ensures |r| == n && forall i :: 0 <= i < n ==> r[i] == i
  {
    seq(n, i => i)
  }

  /** A subset as large as its superset is the superset. */
  lemma {:induction false} SubsetSameCard<T>(a: set<T>, b: set<T>)
    requires a <= b && |a| == |b|
    ensures a == b
  {
    if a != b {
      var x :| x in b && x !in a;
      assert a <= b - {x};
      SubsetCard(a, b - {x});
    }
  }

  lemma {:induction false} SubsetCard<T>(a: set<T>, b: set<T>)
    requires a <= b
    ensures |a| <= |b|
    decreases |b|
  {
    if a != {} {
      var x :| x in a;
      SubsetCard(a - {x}, b - {x});
    }
  }

  /** A sample of all n indices below n is every index. */
  lemma FullSampleCoversAll(indices: seq<int>, n: nat)
    requires IsSample(indices, n, n)
    ensures forall i :: 0 <= i < n ==> i in indices
  {
    var picked := set x | x in indices;
    var range := set x | x in Range(n);
    DistinctCard(indices);
    DistinctCard(Range(n));
    forall x | x in picked
      ensures x in range
    {
      assert Range(n)[x] == x;
    }
    SubsetSameCard(picked, range);
    forall i | 0 <= i < n
      ensures i in indices
    {
      assert Range(n)[i] == i;
      assert i in range;
    }
  }

  /** What listRecommendations promises about the ids it returns. */
  lemma RecommendationFacts(client: Client, req: ListRecommendationsRequest,
                            order: seq<Value>, indices: seq<int>)
    requires ChoicesFit(client, req, order, indices)
    requires ListRecommendations(client, req, order, indices).Success?
    ensures var ids := Picked(order, indices);
      && ListRecommendations(client, req, order, indices).value.productIds == List(ids)
      && AsSet(req.productIds).Success?
      && (forall x :: x in ids ==> x !in AsSet(req.productIds).value)
      && (forall x :: x in ids ==> exists p :: p in Catalog(client) && p.id == x)
      && |ids| == Min(MaxResponses, |Eligible(Catalog(client), req).value|)
      && Distinct(ids)
  {
    var ids := Picked(order, indices);
    var catalog := Catalog(client);
    var requested := AsSet(req.productIds).value;
    var eligible := Eligible(catalog, req).value;
    assert ListRecommendations(client, req, order, indices).value.productIds == List(ids);
    EnumerationLength(order, eligible);
    forall x | x in ids
      ensures x !in requested && exists p :: p in catalog && p.id == x
    {
      var j :| 0 <= j < |ids| && ids[j] == x;
      assert order[indices[j]] in order;
      assert x in eligible;
      var i :| 0 <= i < |catalog| && catalog[i].id == x;
      assert catalog[i] in catalog;
    }
    assert Distinct(ids) by {
      forall j, k | 0 <= j < k < |ids|
        ensures ids[j] != ids[k]
      {
        assert indices[j] != indices[k];
      }
    }
  }

  /** With at most five eligible ids, every one of them is recommended. */
  lemma FewEligibleAllReturned(client: Client, req: ListRecommendationsRequest,
                               order: seq<Value>, indices: seq<int>)
    requires ChoicesFit(client, req, order, indices)
    requires ListRecommendations(client, req, order, indices).Success?
    requires |Eligible(Catalog(client), req).value| <= MaxResponses
    ensures (set x | x in Picked(order, indices)) == Eligible(Catalog(client), req).value
  {
    var eligible := Eligible(Catalog(client), req).value;
    var ids := Picked(order, indices);
    EnumerationLength(order, eligible);
    FullSampleCoversAll(indices, |order|);
    forall x | x in eligible
      ensures x in ids
    {
      var i :| 0 <= i < |order| && order[i] == x;
      assert i in indices;
      var j :| 0 <= j < |indices| && indices[j] == i;
      assert ids[j] == x;
    }
    forall x | x in ids
      ensures x in eligible
    {
      var j :| 0 <= j < |ids| && ids[j] == x;
      assert order[indices[j]] in order;
    }
  }

  /** When the catalog service cannot be reached, nothing is recommended. */
  lemma UnreachableCatalogRecommendsNothing(req: ListRecommendationsRequest, order: seq<Value>, indices: seq<int>)
    requires ChoicesFit(Real(None), req, order, indices)
    requires ListRecommendations(Real(None), req, order, indices).Success?
    ensures ListRecommendations(Real(None), req, order, indices).value.productIds == List([])
  {
    assert Eligible([], req).value == {};
    EnumerationLength(order, {});
  }

  /** The fake catalog's ids other than the sunglasses, which the shopper is viewing. */
  lemma FakeEligibleAfterSunglasses(userId: string)
    ensures Eligible(FakeProducts(), ListRecommendationsRequest(Str(userId), List([Str("OLJCESPC7Z")])))
      == Success({Str("66VCHSJNUP"), Str("1YMWWN1N4O"), Str("L9ECAV7KIM")})
  {
    var ps := FakeProducts();
    assert (set i | 0 <= i < |ps| :: ps[i].id)
      == {Str("OLJCESPC7Z"), Str("66VCHSJNUP"), Str("1YMWWN1N4O"), Str("L9ECAV7KIM")} by {
      assert ps[0].id == Str("OLJCESPC7Z") && ps[1].id == Str("66VCHSJNUP");
      assert ps[2].id == Str("1YMWWN1N4O") && ps[3].id == Str("L9ECAV7KIM");
    }
    var viewed := [Str("OLJCESPC7Z")];
    assert (set i | 0 <= i < |viewed| :: viewed[i]) == {Str("OLJCESPC7Z")} by {
      assert viewed[0] == Str("OLJCESPC7Z");
    }
    assert forall i :: 0 <= i < |ps| ==> Hashable(ps[i].id);
    assert AsSet(List(viewed)) == Success({Str("OLJCESPC7Z")});
    assert {Str("OLJCESPC7Z"), Str("66VCHSJNUP"), Str("1YMWWN1N4O"), Str("L9ECAV7KIM")} - {Str("OLJCESPC7Z")}
      == {Str("66VCHSJNUP"), Str("1YMWWN1N4O"), Str("L9ECAV7KIM")};
  }

  /** The fake catalog recommends its three other products to a shopper viewing the sunglasses. */
  lemma FakeCatalogAfterSunglasses(userId: string, order: seq<Value>, indices: seq<int>)
    requires ChoicesFit(Fake, ListRecommendationsRequest(Str(userId), List([Str("OLJCESPC7Z")])), order, indices)
    ensures var r := ListRecommendations(Fake, ListRecommendationsRequest(Str(userId), List([Str("OLJCESPC7Z")])), order, indices);
      r.Success? && r.value.productIds.List?
      && (set x | x in r.value.productIds.elems) == {Str("66VCHSJNUP"), Str("1YMWWN1N4O"), Str("L9ECAV7KIM")}
  {
    var req := ListRecommendationsRequest(Str(userId), List([Str("OLJCESPC7Z")]));
    FakeEligibleAfterSunglasses(userId);
    FewEligibleAllReturned(Fake, req, order, indices);
  }

  /** A missing or non-string user id fails on building the log line. */
  lemma UserIdMustBeString(client: Client, req: ListRecommendationsRequest, order: seq<Value>, indices: seq<int>)
    requires ChoicesFit(client, req, order, indices)
    ensures ListRecommendations(client, req, order, indices).Failure? <==>
      !req.userId.Str? || Eligible(Catalog(client), req).Failure?
  {
  }

  /** Once a prefix fails to decode, the whole list fails with the same error. */
  lemma {:induction false} DecodeFailureSticks(elems: seq<Value>, n: nat)
    requires n <= |elems|
    requires DecodeAll(elems[..n]).Failure?
    ensures DecodeAll(elems) == DecodeAll(elems[..n])
    decreases |elems| - n
  {
    if n < |elems| {
      assert elems[..n + 1][..n] == elems[..n];
      DecodeFailureSticks(elems, n + 1);
    } else {
      assert elems[..n] == elems;
    }
  }

  /** Once a prefix fails to encode, the whole list fails with the same error. */
  lemma {:induction false} EncodeFailureSticks(products: seq<Product>, n: nat)
    requires n <= |products|
    requires EncodeAll(products[..n]).Failure?
    ensures EncodeAll(products) == EncodeAll(products[..n])
    decreases |products| - n
  {
    if n < |products| {
      assert products[..n + 1][..n] == products[..n];
      EncodeFailureSticks(products, n + 1);
    } else {
      assert products[..n] == products;
    }
  }

  /** Encoding succeeds exactly when every product has a price. */
  lemma {:induction false} EncodeAllSucceeds(products: seq<Product>)
    ensures EncodeAll(products).Success? <==> forall i :: 0 <= i < |products| ==> products[i].priceUsd.Some?
    ensures EncodeAll(products).Success? ==> |EncodeAll(products).value| == |products|
  {
    if |products| != 0 {
      var front := products[..|products| - 1];
      EncodeAllSucceeds(front);
      assert forall i :: 0 <= i < |front| ==> front[i] == products[i];
    }
  }

  /** A product with a price comes back unchanged from its dictionary. */
  lemma ProductRoundTrip(p: Product)
    requires p.priceUsd.Some?
    ensures ProductToDict(p).Success?
    ensures DecodeProduct(ProductToDict(p).value) == Success(p)
  {
  }

  /** dict2ListProductsResponse undoes ListProductsResponse.toDict, keeping the order. */
  lemma {:induction false} ProductsRoundTrip(products: seq<Product>)
    requires EncodeAll(products).Success?
    ensures DecodeAll(EncodeAll(products).value) == Success(products)
  {
    if |products| != 0 {
      var front := products[..|products| - 1];
      var last := products[|products| - 1];
      ProductsRoundTrip(front);
      EncodeAllSucceeds(products);
      ProductRoundTrip(last);
      var vs := EncodeAll(products).value;
      assert vs == EncodeAll(front).value + [ProductToDict(last).value];
      assert vs[..|vs| - 1] == EncodeAll(front).value;
      assert products == front + [last];
    }
  }

  /** The request and response dictionaries round-trip. */
  lemma MessagesRoundTrip(req: ListRecommendationsRequest, resp: ListRecommendationsResponse)
    ensures Dict2ListRecommendationsRequest(RequestToDict(req).fields) == req
    ensures Dict2ListRecommendationsResponse(ResponseToDict(resp).fields) == resp
  {
  }

  /** Absent keys decode to None, and an absent product list to no products. */
  lemma MissingKeysDefault()
    ensures Dict2ListRecommendationsRequest(map[]) == ListRecommendationsRequest(Null, Null)
    ensures Dict2ListRecommendationsResponse(map[]) == ListRecommendationsResponse(Null)
    ensures Dict2Product(map[]) == Success(Product(Null, Null, Null, Null, None, Null))
    ensures ProductsFromDict(map[]) == Success(ListProductsResponse([]))
  {
  }
}
