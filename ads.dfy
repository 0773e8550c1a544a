/**
 * The ad service: a fixed map from category to ads, ads for the requested categories
 * in request order, and a random selection when nothing matches. The random indices
 * and the map's iteration order are inputs.
 */
module Ads {
  datatype Ad = Ad(redirectUrl: string, text: string)

  /** What the service hands back, or the runtime panic that ends the request. */
  datatype Outcome = Returned(ads: seq<Ad>) | Panicked

  /** What the handler writes back. */
  datatype Response = BadRequest | Ok(ads: seq<Ad>) | Crashed

  /** The number of random ads served, set at start-up. */
  const MaxAdsToServe: int := 2

  const Hairdryer := Ad("/product/2ZYFJ3GM2N", "Hairdryer for sale. 50% off.")
  const TankTop := Ad("/product/66VCHSJNUP", "Tank top for sale. 20% off.")
  const CandleHolder := Ad("/product/0PUK6V6EV0", "Candle holder for sale. 30% off.")
  const BambooGlassJar := Ad("/product/9SIQT8TOJO", "Bamboo glass jar for sale. 10% off.")
  const Watch := Ad("/product/1YMWWN1N4O", "Watch for sale. Buy one, get second kit for free")
  const Mug := Ad("/product/6E92ZMYYFZ", "Mug for sale. Buy two, get third one for free")
  const Loafers := Ad("/product/L9ECAV7KIM", "Loafers for sale. Buy one, get second one for free")

  /** The ads of each category, as CreateAdsMap builds them. */
  function DefaultAdsMap(): map<string, seq<Ad>>
  {
    map[
      "clothing" := [TankTop],
      "accessories" := [Watch],
      "footwear" := [Loafers],
      "hair" := [Hairdryer],
      "decor" := [CandleHolder],
      "kitchen" := [BambooGlassJar, Mug]]
  }

  /** A Go map lookup: the stored slice, or the empty (nil) slice for a missing key. */
  function Lookup(adsMap: map<string, seq<Ad>>, category: string): seq<Ad>
  {
    if category in adsMap then adsMap[category] else []
  }

  /** The ads of the given categories, concatenated in the order the categories are given. */
  function Gathered(adsMap: map<string, seq<Ad>>, keys: seq<string>): (r: seq<Ad>)
    ensures forall a :: a in r <==> exists i :: 0 <= i < |keys| && a in Lookup(adsMap, keys[i])
  {
    if |keys| == 0 then []
    else
      var front := keys[..|keys| - 1];
      var r := Gathered(adsMap, front) + Lookup(adsMap, keys[|keys| - 1]);
      assert forall i :: 0 <= i < |front| ==> front[i] == keys[i];
      r
  }

  /** `order` lists every key of the map exactly once: one possible Go iteration order. */
  predicate IsKeyOrder(order: seq<string>, adsMap: map<string, seq<Ad>>)
  {
    (forall k :: k in adsMap ==> k in order) && (forall k :: k in order ==> k in adsMap)
    && forall i, j :: 0 <= i < j < |order| ==> order[i] != order[j]
  }

  /**
   * GetRandomAds: `count` ads, the i-th being the one at index draws[i] of every ad in
   * the map. A negative count (make) or an empty map (rand.Intn(0)) panics.
   */
  function RandomAds(pool: seq<Ad>, count: int, draws: seq<nat>): (r: Outcome)
    requires DrawsFit(pool, count, draws)
    ensures r.Panicked? <==> count < 0 || (count > 0 && |pool| == 0)
    ensures r.Returned? ==> |r.ads| == count && forall a | a in r.ads :: a in pool
  {
    if count < 0 || (count > 0 && |pool| == 0) then Panicked
    else Returned(seq(count, i requires 0 <= i < count => pool[draws[i]]))
  }

  /** The random draws `rand.Intn(len(pool))` can yield, one per ad served. */
  predicate DrawsFit(pool: seq<Ad>, count: int, draws: seq<nat>)
  {
    |pool| > 0 ==> |draws| >= count && forall i :: 0 <= i < |draws| ==> draws[i] < |pool|
  }

  /** The ads GetAds serves for a list of context keys. */
  function AdsFor(adsMap: map<string, seq<Ad>>, count: int, keys: seq<string>,
                  order: seq<string>, draws: seq<nat>): (r: Outcome)
    requires DrawsFit(Gathered(adsMap, order), count, draws)
    ensures |keys| > 0 && |Gathered(adsMap, keys)| > 0 ==> r == Returned(Gathered(adsMap, keys))
    ensures |keys| == 0 || |Gathered(adsMap, keys)| == 0 ==> r == RandomAds(Gathered(adsMap, order), count, draws)
    ensures r.Returned? ==> forall a | a in r.ads :: exists c :: c in adsMap && a in adsMap[c]
  {
    var pool := Gathered(adsMap, order);
    var first := if |keys| > 0 then Returned(Gathered(adsMap, keys)) else RandomAds(pool, count, draws);
    if first.Returned? && |first.ads| == 0 then RandomAds(pool, count, draws) else first
  }

  class Adservice {
    var maxAdsToServe: int
    var adsMap: map<string, seq<Ad>>

    /** The start-up state: two ads served at random, the six categories of ads. */
    constructor ()
      ensures maxAdsToServe == MaxAdsToServe
      ensures adsMap == DefaultAdsMap()
    {
      maxAdsToServe := 0;
      adsMap := map[];
      new;
      SetMaxAdsToServe(MaxAdsToServe);
      CreateAdsMap();
    }

    method CreateAdsMap()
      modifies this
      ensures adsMap == DefaultAdsMap()
      ensures maxAdsToServe == old(maxAdsToServe)
    {
      adsMap := map[];
      adsMap := adsMap["clothing" := [TankTop]];
      adsMap := adsMap["accessories" := [Watch]];
      adsMap := adsMap["footwear" := [Loafers]];
      adsMap := adsMap["hair" := [Hairdryer]];
      adsMap := adsMap["decor" := [CandleHolder]];
      adsMap := adsMap["kitchen" := [BambooGlassJar, Mug]];
    }

    method SetMaxAdsToServe(n: int)
      modifies this
      ensures maxAdsToServe == n
      ensures adsMap == old(adsMap)
    {
      maxAdsToServe := n;
    }

    /** Get_max_ads_to_serve: the count of random ads the service serves. */
    function GetMaxAdsToServe(): (r: int)
      reads this
      ensures r == maxAdsToServe
    {
      maxAdsToServe
    }

    /** The ads of one category; an unknown category has none. */
    function GetAdsByCategory(category: string): (r: seq<Ad>)
      reads this
      ensures category in adsMap ==> r == adsMap[category]
      ensures category !in adsMap ==> r == []
    {
      Lookup(adsMap, category)
    }

    /** Every ad of the map, visited in `order`, then `maxAdsToServe` picks from it. */
    method GetRandomAds(order: seq<string>, draws: seq<nat>) returns (r: Outcome)
      requires IsKeyOrder(order, adsMap)
      requires DrawsFit(Gathered(adsMap, order), maxAdsToServe, draws)
      ensures r == RandomAds(Gathered(adsMap, order), maxAdsToServe, draws)
    {
      if maxAdsToServe < 0 {
        return Panicked;
      }
      var ads := new Ad[maxAdsToServe];
      var pool: seq<Ad> := [];
      var k := 0;
      while k < |order|
        invariant 0 <= k <= |order|
        invariant pool == Gathered(adsMap, order[..k])
      {
        assert order[..k + 1][..k] == order[..k];
        pool := pool + adsMap[order[k]];
        k := k + 1;
      }
      assert order[..k] == order;
      if maxAdsToServe > 0 && |pool| == 0 {
        return Panicked;
      }
      var i := 0;
      while i < maxAdsToServe
        invariant 0 <= i <= maxAdsToServe
        invariant forall j :: 0 <= j < i ==> ads[j] == pool[draws[j]]
      {
        ads[i] := pool[draws[i]];
        i := i + 1;
      }
      r := Returned(ads[..]);
    }

    /**
     * GetAds: the ads of the context keys in request order; with no keys, or when the
     * keys yield nothing, a random selection instead.
     */
    method GetAds(keys: seq<string>, order: seq<string>, draws: seq<nat>) returns (r: Outcome)
      requires IsKeyOrder(order, adsMap)
      requires DrawsFit(Gathered(adsMap, order), maxAdsToServe, draws)
      ensures r == AdsFor(adsMap, maxAdsToServe, keys, order, draws)
    {
      var allads: Outcome;
      if |keys| > 0 {
        var collected: seq<Ad> := [];
        var i := 0;
        while i < |keys|
          invariant 0 <= i <= |keys|
          invariant collected == Gathered(adsMap, keys[..i])
        {
          assert keys[..i + 1][..i] == keys[..i];
          collected := collected + GetAdsByCategory(keys[i]);
          i := i + 1;
        }
        assert keys[..i] == keys;
        allads := Returned(collected);
      } else {
        allads := GetRandomAds(order, draws);
      }
      if allads.Returned? && |allads.ads| == 0 {
        allads := GetRandomAds(order, draws);
      }
      r := allads;
    }

    /**
     * The handler: 400 unless the request is a GET carrying `context_keys`, whose first
     * value is split on commas into the context keys.
     */
    method Handle(verb: string, params: map<string, seq<string>>, order: seq<string>, draws: seq<nat>)
      returns (resp: Response)
      requires IsKeyOrder(order, adsMap)
      requires DrawsFit(Gathered(adsMap, order), maxAdsToServe, draws)
      ensures verb != "GET" || "context_keys" !in params <==> resp == BadRequest
      ensures verb == "GET" && "context_keys" in params ==>
        var served := AdsFor(adsMap, maxAdsToServe, SplitComma(FirstValue(params["context_keys"])), order, draws);
        resp == if served.Returned? then Ok(served.ads) else Crashed
    {
      if verb != "GET" {
        return BadRequest;
      }
      if "context_keys" in params {
        var served := GetAds(SplitComma(FirstValue(params["context_keys"])), order, draws);
        resp := if served.Returned? then Ok(served.ads) else Crashed;
      } else {
        resp := BadRequest;
      }
    }
  }

  /** Go's url.Values.Get: the first value of a key, "" when there is none. */
  function FirstValue(values: seq<string>): string
  {
    if |values| == 0 then "" else values[0]
  }

  /** Go's strings.Split(s, ","): at least one piece, and "" yields [""]. */
  function SplitComma(s: string): (r: seq<string>)
    ensures |r| >= 1
    ensures forall i :: 0 <= i < |r| ==> ',' !in r[i]
  {
    if |s| == 0 then [""]
    else
      var rest := SplitComma(s[1..]);
      if s[0] == ',' then [""] + rest
      else [[s[0]] + rest[0]] + rest[1..]
  }

  /** Go's strings.Join(parts, ","). */
  function JoinComma(parts: seq<string>): string
    requires |parts| >= 1
  {
    if |parts| == 1 then parts[0] else parts[0] + "," + JoinComma(parts[1..])
  }

  /** Splitting on commas loses nothing: joining the pieces gives the value back. */
  lemma {:induction false} SplitJoin(s: string)
    ensures JoinComma(SplitComma(s)) == s
  {
    if |s| != 0 {
      var rest := SplitComma(s[1..]);
      SplitJoin(s[1..]);
      if s[0] == ',' {
        assert SplitComma(s)[1..] == rest;
      } else {
        var r := SplitComma(s);
        if |rest| == 1 {
          assert r == [[s[0]] + rest[0]];
        } else {
          assert r[1..] == rest[1..];
          assert JoinComma(rest) == rest[0] + "," + JoinComma(rest[1..]);
        }
      }
    }
  }

  /** A value without commas is a single piece. */
  lemma {:induction false} SplitWithoutComma(s: string)
    requires ',' !in s
    ensures SplitComma(s) == [s]
  {
    if |s| != 0 {
      SplitWithoutComma(s[1..]);
      assert s == [s[0]] + s[1..];
    }
  }

  /** A comma ends the first piece; the rest is split on its own. */
  lemma {:induction false} SplitAfterComma(piece: string, rest: string)
    requires ',' !in piece
    ensures SplitComma(piece + "," + rest) == [piece] + SplitComma(rest)
  {
    var s := piece + "," + rest;
    if |piece| == 0 {
      assert s == [','] + rest;
      assert s[1..] == rest;
    } else {
      SplitAfterComma(piece[1..], rest);
      assert s[0] == piece[0];
      assert s[1..] == piece[1..] + "," + rest;
      assert [piece[0]] + piece[1..] == piece;
    }
  }

  /** Gathering distributes over concatenation of the key lists. */
  lemma {:induction false} GatheredConcat(adsMap: map<string, seq<Ad>>, a: seq<string>, b: seq<string>)
    ensures Gathered(adsMap, a + b) == Gathered(adsMap, a) + Gathered(adsMap, b)
  {
    if |b| == 0 {
      assert a + b == a;
    } else {
      var front := b[..|b| - 1];
      GatheredConcat(adsMap, a, front);
      assert (a + b)[..|a + b| - 1] == a + front;
      assert (a + b)[|a + b| - 1] == b[|b| - 1];
    }
  }

  /** An unknown category adds no ads wherever it appears among the keys. */
  lemma UnknownCategoryContributesNothing(adsMap: map<string, seq<Ad>>, a: seq<string>,
                                          unknown: string, b: seq<string>)
    requires unknown !in adsMap
    ensures Gathered(adsMap, a + [unknown] + b) == Gathered(adsMap, a + b)
  {
    assert Gathered(adsMap, [unknown]) == [] by {
      assert [unknown][..0] == [];
    }
    calc {
      Gathered(adsMap, a + [unknown] + b);
      { GatheredConcat(adsMap, a + [unknown], b); }
      Gathered(adsMap, a + [unknown]) + Gathered(adsMap, b);
      { GatheredConcat(adsMap, a, [unknown]); }
      Gathered(adsMap, a) + Gathered(adsMap, [unknown]) + Gathered(adsMap, b);
      Gathered(adsMap, a) + Gathered(adsMap, b);
      { GatheredConcat(adsMap, a, b); }
      Gathered(adsMap, a + b);
    }
  }

  /** Random ads come from the map and there are exactly as many as asked for. */
  lemma RandomAdsFromMap(adsMap: map<string, seq<Ad>>, order: seq<string>, count: int, draws: seq<nat>)
    requires DrawsFit(Gathered(adsMap, order), count, draws)
    requires RandomAds(Gathered(adsMap, order), count, draws).Returned?
    ensures |RandomAds(Gathered(adsMap, order), count, draws).ads| == count
    ensures forall a :: a in RandomAds(Gathered(adsMap, order), count, draws).ads ==>
      exists k :: k in adsMap && a in adsMap[k]
  {
    var pool := Gathered(adsMap, order);
    forall a | a in RandomAds(pool, count, draws).ads
      ensures exists k :: k in adsMap && a in adsMap[k]
    {
      var i :| 0 <= i < count && RandomAds(pool, count, draws).ads[i] == a;
      assert a in pool;
      var j :| 0 <= j < |order| && a in Lookup(adsMap, order[j]);
      assert order[j] in adsMap;
    }
  }

  /** Random selection succeeds whenever the draws fit and the map has ads. */
  lemma RandomAdsSucceed(pool: seq<Ad>, count: int, draws: seq<nat>)
    requires count >= 0 && |pool| > 0
    requires DrawsFit(pool, count, draws)
    ensures RandomAds(pool, count, draws).Returned?
    ensures |RandomAds(pool, count, draws).ads| == count
  {
  }

  /** Once the map holds ads and at least one ad is served, GetAds never answers with none. */
  lemma AdsNeverEmpty(adsMap: map<string, seq<Ad>>, count: int, keys: seq<string>,
                      order: seq<string>, draws: seq<nat>)
    requires count > 0 && |Gathered(adsMap, order)| > 0
    requires DrawsFit(Gathered(adsMap, order), count, draws)
    ensures AdsFor(adsMap, count, keys, order, draws).Returned?
    ensures |AdsFor(adsMap, count, keys, order, draws).ads| > 0
  {
    RandomAdsSucceed(Gathered(adsMap, order), count, draws);
  }

  /** With context keys that match, the result is their ads in request order. */
  lemma MatchingKeysServeTheirAds(adsMap: map<string, seq<Ad>>, count: int, keys: seq<string>,
                                  order: seq<string>, draws: seq<nat>)
    requires DrawsFit(Gathered(adsMap, order), count, draws)
    requires |Gathered(adsMap, keys)| > 0
    ensures AdsFor(adsMap, count, keys, order, draws) == Returned(Gathered(adsMap, keys))
  {
  }

  /** Every category of the default map, kitchen holding two ads in order. */
  lemma DefaultCategories()
    ensures DefaultAdsMap().Keys == {"clothing", "accessories", "footwear", "hair", "decor", "kitchen"}
    ensures DefaultAdsMap()["kitchen"] == [BambooGlassJar, Mug]
    ensures forall k :: k in DefaultAdsMap() && k != "kitchen" ==> |DefaultAdsMap()[k]| == 1
  {
  }

  /** Two comma-free keys joined by a comma, as in `context_keys=footwear,decor`, split back into both keys. */
  lemma SplitTwoKeys(first: string, second: string)
    requires ',' !in first && ',' !in second
    ensures SplitComma(first + "," + second) == [first, second]
  {
    SplitAfterComma(first, second);
    SplitWithoutComma(second);
  }

  /** Those keys serve loafers, then the candle holder. */
  lemma FootwearThenDecor(order: seq<string>, draws: seq<nat>)
    requires DrawsFit(Gathered(DefaultAdsMap(), order), MaxAdsToServe, draws)
    ensures AdsFor(DefaultAdsMap(), MaxAdsToServe, ["footwear", "decor"], order, draws)
      == Returned([Loafers, CandleHolder])
  {
    var m := DefaultAdsMap();
    assert Gathered(m, ["footwear"]) == [Loafers] by {
      assert ["footwear"][..0] == [];
    }
    assert ["footwear", "decor"][..1] == ["footwear"];
    assert Gathered(m, ["footwear", "decor"]) == [Loafers, CandleHolder];
  }

  /** `context_keys=` is one empty key, which matches nothing, so two random ads are served. */
  lemma EmptyKeyServesRandomAds(order: seq<string>, draws: seq<nat>)
    requires IsKeyOrder(order, DefaultAdsMap())
    requires DrawsFit(Gathered(DefaultAdsMap(), order), MaxAdsToServe, draws)
    ensures SplitComma("") == [""]
    ensures AdsFor(DefaultAdsMap(), MaxAdsToServe, [""], order, draws).Returned?
    ensures |AdsFor(DefaultAdsMap(), MaxAdsToServe, [""], order, draws).ads| == 2
  {
    assert "clothing" in order;
    var i :| 0 <= i < |order| && order[i] == "clothing";
    assert TankTop in Gathered(DefaultAdsMap(), order);
    assert Gathered(DefaultAdsMap(), [""]) == [];
    RandomAdsSucceed(Gathered(DefaultAdsMap(), order), MaxAdsToServe, draws);
  }
}
