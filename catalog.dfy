/**
 * The product catalog service: a cached catalog that is parsed from embedded JSON on
 * demand, lookup by id, case-insensitive substring search, and the decision the HTTP
 * handler takes from the request method and query parameters.
 */
module Catalog {
  import opened Wrappers
  import Money
  import opened Text

  datatype Product = Product(
    id: string,
    name: string,
    description: string,
    picture: string,
    priceUsd: Money.Money,
    categories: seq<string>)

  /**
   * The package-level cached catalog. `data` is what parsing the embedded catalog JSON
   * yields: `None` when it does not parse.
   */
  class Catalog {
    var products: seq<Product>
    const data: Option<seq<Product>>

    /** Start-up parses the embedded catalog once; a parse failure leaves the cache empty. */
    constructor (data: Option<seq<Product>>)
      ensures this.data == data
      ensures products == Refilled([], data)
    {
      this.data := data;
      products := if data.Some? then data.value else [];
    }

    /** Re-parses the embedded catalog only when the cache is empty, and returns the cache. */
    method ParseCatalog() returns (r: seq<Product>)
      modifies this
      ensures products == Refilled(old(products), data)
      ensures r == products
    {
      if |products| == 0 {
        match data {
          case None =>
            return [];
          case Some(ps) =>
            products := ps;
        }
      }
      r := products;
    }

    /** ListProducts: the parsed catalog, unchanged. */
    method ListProducts() returns (r: seq<Product>)
      modifies this
      ensures products == Refilled(old(products), data)
      ensures r == products
    {
      r := ParseCatalog();
    }

    /**
     * GetProduct scans the whole catalog without stopping at a match, so the last
     * product carrying the id is the one returned.
     */
    method GetProduct(id: string) returns (r: Result<Product, string>)
      modifies this
      ensures products == Refilled(old(products), data)
      ensures LastWithId(products, id).Some? ==> r == Success(LastWithId(products, id).value)
      ensures LastWithId(products, id).None? ==> r == Failure("no product with ID " + id)
    {
      var ps := ParseCatalog();
      var found := ScanForId(ps, id);
      if found.None? {
        return Failure("no product with ID " + id);
      }
      return Success(found.value);
    }

    /** SearchProducts keeps, in catalog order, every product the query matches. */
    method SearchProducts(query: string, lower: string -> string) returns (r: seq<Product>)
      modifies this
      ensures products == Refilled(old(products), data)
      ensures r == Search(products, query, lower)
    {
      var ps := ParseCatalog();
      r := [];
      var i := 0;
      while i < |ps|
        invariant 0 <= i <= |ps|
        invariant r == Search(ps[..i], query, lower)
      {
        assert ps[..i + 1][..i] == ps[..i];
        if Matches(ps[i], query, lower) {
          r := r + [ps[i]];
        }
        i := i + 1;
      }
      assert ps[..i] == ps;
    }

    /** The handler: dispatch on method and parameters, then run the chosen operation. */
    method Handle(verb: string, params: map<string, seq<string>>, lower: string -> string)
      returns (resp: Response)
      modifies this
      ensures Dispatch(verb, params).Rejected? ==> resp == BadRequest && products == old(products)
      ensures !Dispatch(verb, params).Rejected? ==> products == Refilled(old(products), data)
      ensures Dispatch(verb, params).ListAll? ==> resp == Listed(products)
      ensures Dispatch(verb, params).Lookup? ==>
        var found := LastWithId(products, Dispatch(verb, params).id);
        (found.Some? ==> resp == Found(found.value)) && (found.None? ==> resp == BadRequest)
      ensures Dispatch(verb, params).Query? ==>
        resp == Results(Search(products, Dispatch(verb, params).query, lower))
    {
      var route := Dispatch(verb, params);
      match route {
        case Rejected =>
          resp := BadRequest;
        case ListAll =>
          var ps := ListProducts();
          resp := Listed(ps);
        case Lookup(id) =>
          var r := GetProduct(id);
          resp := if r.Success? then Found(r.value) else BadRequest;
        case Query(query) =>
          var ps := SearchProducts(query, lower);
          resp := Results(ps);
      }
    }
  }

  /** The cache after a parseCatalog call: refilled from the embedded data only when empty. */
  function Refilled(cached: seq<Product>, data: Option<seq<Product>>): seq<Product>
  {
    if |cached| == 0 && data.Some? then data.value else cached
  }

  /** The last product of `ps` whose id is `id`, if any. */
  function LastWithId(ps: seq<Product>, id: string): (r: Option<Product>)
    ensures r.None? <==> forall k :: 0 <= k < |ps| ==> ps[k].id != id
    ensures r.Some? ==> exists k :: 0 <= k < |ps| && ps[k] == r.value && IsLastWithId(ps, id, k)
  {
    if |ps| == 0 then None
    else if ps[|ps| - 1].id == id then
      assert IsLastWithId(ps, id, |ps| - 1);
      Some(ps[|ps| - 1])
    else
      var r := LastWithId(ps[..|ps| - 1], id);
      assert forall k :: 0 <= k < |ps| - 1 ==> ps[..|ps| - 1][k] == ps[k];
      if r.Some? then
        var k :| 0 <= k < |ps| - 1 && ps[..|ps| - 1][k] == r.value
                 && IsLastWithId(ps[..|ps| - 1], id, k);
        assert IsLastWithId(ps, id, k);
        r
      else r
  }

  /** GetProduct's scan: every product is visited and the last one with the id is kept. */
  method ScanForId(ps: seq<Product>, id: string) returns (found: Option<Product>)
    ensures found == LastWithId(ps, id)
  {
    found := None;
    var i := 0;
    while i < |ps|
      invariant 0 <= i <= |ps|
      invariant found == LastWithId(ps[..i], id)
    {
      assert LastWithId(ps[..i + 1], id)
        == if ps[i].id == id then Some(ps[i]) else LastWithId(ps[..i], id) by {
        assert ps[..i + 1][..i] == ps[..i];
      }
      if id == ps[i].id {
        found := Some(ps[i]);
      }
      i := i + 1;
    }
    assert ps[..i] == ps;
  }

  /** Position `k` holds `id` and no later position does. */
  predicate IsLastWithId(ps: seq<Product>, id: string, k: int)
  {
    0 <= k < |ps| && ps[k].id == id && forall j :: k < j < |ps| ==> ps[j].id != id
  }

  /**
   * The search condition: the lower-cased name or description contains the lower-cased
   * query. Unicode lower-casing is the parameter `lower`.
   */
  predicate Matches(p: Product, query: string, lower: string -> string)
  {
    Contains(lower(p.name), lower(query)) || Contains(lower(p.description), lower(query))
  }

  /** The products of `ps` that the query matches, in catalog order. */
  function Search(ps: seq<Product>, query: string, lower: string -> string): (r: seq<Product>)
    ensures |r| <= |ps|
    ensures forall p :: p in r <==> p in ps && Matches(p, query, lower)
  {
    if |ps| == 0 then []
    else
      var front := ps[..|ps| - 1];
      var last := ps[|ps| - 1];
      assert ps == front + [last];
      Search(front, query, lower) + (if Matches(last, query, lower) then [last] else [])
  }

  /** What the handler decides to do with a request. */
  datatype Route = Rejected | ListAll | Lookup(id: string) | Query(query: string)

  /** What the handler writes back: 400, or a JSON body. */
  datatype Response =
    | BadRequest
    | Listed(products: seq<Product>)
    | Found(product: Product)
    | Results(results: seq<Product>)

  /** Go's url.Values.Get: the first value of a key, "" when there is none. */
  function FirstValue(values: seq<string>): string
  {
    if |values| == 0 then "" else values[0]
  }

  /** The handler's choice from the request method and its decoded query parameters. */
  function Dispatch(verb: string, params: map<string, seq<string>>): (r: Route)
    ensures verb != "GET" ==> r == Rejected
    ensures r.Lookup? ==> "id" in params && "query" !in params && r.id == FirstValue(params["id"])
    ensures r.Query? ==> "query" in params && "id" !in params && r.query == FirstValue(params["query"])
  {
    if verb != "GET" then Rejected
    else if |params| == 0 then ListAll
    else if "id" in params && "query" !in params then
      if |params["id"]| > 1 then Rejected else Lookup(FirstValue(params["id"]))
    else if "id" !in params && "query" in params then
      if |params["query"]| > 1 then Rejected else Query(FirstValue(params["query"]))
    else Rejected
  }

  /** Routing table of the handler, each case in both directions. */
  lemma DispatchCases(verb: string, params: map<string, seq<string>>)
    ensures verb != "GET" ==> Dispatch(verb, params) == Rejected
    ensures Dispatch(verb, params) == ListAll <==> verb == "GET" && params == map[]
    ensures Dispatch(verb, params).Lookup? <==>
      verb == "GET" && "id" in params && "query" !in params && |params["id"]| <= 1
    ensures Dispatch(verb, params).Lookup? ==>
      Dispatch(verb, params).id == FirstValue(params["id"])
    ensures Dispatch(verb, params).Query? <==>
      verb == "GET" && "query" in params && "id" !in params && |params["query"]| <= 1
    ensures Dispatch(verb, params).Query? ==>
      Dispatch(verb, params).query == FirstValue(params["query"])
    ensures verb == "GET" && params != map[] && ("id" in params) == ("query" in params) ==>
      Dispatch(verb, params) == Rejected
  {
    if params == map[] {
      assert |params| == 0;
    } else {
      assert |params| != 0;
    }
  }

  /** Parameters other than `id` and `query` are ignored once one of those two is present. */
  lemma UnrelatedParametersIgnored(params: map<string, seq<string>>, key: string, values: seq<string>)
    requires key != "id" && key != "query"
    requires "id" in params || "query" in params
    ensures Dispatch("GET", params[key := values]) == Dispatch("GET", params)
  {
    var extended := params[key := values];
    assert "id" in extended <==> "id" in params;
    assert "query" in extended <==> "query" in params;
    assert |extended| != 0 && |params| != 0 by {
      if "id" in params {
        assert "id" in extended;
      } else {
        assert "query" in extended;
      }
    }
  }

  /** Only the first parse of a non-empty catalog matters: refilling again changes nothing. */
  lemma RefilledIdempotent(cached: seq<Product>, data: Option<seq<Product>>)
    ensures Refilled(Refilled(cached, data), data) == Refilled(cached, data)
    ensures |cached| == 0 && data.None? ==> Refilled(cached, data) == []
    ensures |cached| > 0 ==> Refilled(cached, data) == cached
  {
  }

  /** When two products share an id, lookup yields the later one. */
  lemma LaterDuplicateWins(ps: seq<Product>, i: nat, j: nat)
    requires i < j < |ps|
    requires ps[i].id == ps[j].id
    ensures LastWithId(ps, ps[i].id) != Some(ps[i]) || exists k :: j <= k < |ps| && ps[k] == ps[i]
  {
    var r := LastWithId(ps, ps[i].id);
    if r == Some(ps[i]) {
      var k :| 0 <= k < |ps| && ps[k] == r.value && IsLastWithId(ps, ps[i].id, k);
      assert j <= k;
    }
  }

  /** Every string contains the empty string. */
  lemma ContainsEmpty(s: string)
    ensures Contains(s, "")
  {
    assert s[..0] == "";
  }

  /** An empty query (whose lower-casing is empty) matches the whole catalog, in order. */
  lemma {:induction false} EmptyQueryMatchesAll(ps: seq<Product>, lower: string -> string)
    requires lower("") == ""
    ensures Search(ps, "", lower) == ps
  {
    if |ps| != 0 {
      var front := ps[..|ps| - 1];
      var last := ps[|ps| - 1];
      EmptyQueryMatchesAll(front, lower);
      ContainsEmpty(lower(last.name));
      assert Matches(last, "", lower);
      assert Search(ps, "", lower) == Search(front, "", lower) + [last];
      assert ps == front + [last];
    }
  }

  /** Search distributes over concatenation: results keep the catalog's order. */
  lemma {:induction false} SearchConcat(a: seq<Product>, b: seq<Product>, query: string, lower: string -> string)
    ensures Search(a + b, query, lower) == Search(a, query, lower) + Search(b, query, lower)
  {
    if |b| == 0 {
      assert a + b == a;
    } else {
      var front := b[..|b| - 1];
      var last := b[|b| - 1];
      var tail := if Matches(last, query, lower) then [last] else [];
      SearchConcat(a, front, query, lower);
      assert (a + b)[..|a + b| - 1] == a + front;
      assert (a + b)[|a + b| - 1] == last;
      calc {
        Search(a + b, query, lower);
        Search(a + front, query, lower) + tail;
        Search(a, query, lower) + Search(front, query, lower) + tail;
        Search(a, query, lower) + (Search(front, query, lower) + tail);
        Search(a, query, lower) + Search(b, query, lower);
      }
    }
  }
}
