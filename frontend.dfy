/**
 * The frontend's display helpers: cart size and ids, money and currency rendering,
 * slice membership, the platform banner, and the total shown after an order is placed.
 */
module Frontend {
  import opened Money
  import Text
  import Checkout

  /** Go's `cartSize += int(q)` runs in a 64-bit int. */
  function TotalQuantity(c: seq<Checkout.CartItem>): int
  {
    if |c| == 0 then 0 else TotalQuantity(c[..|c| - 1]) + c[|c| - 1].quantity
  }

  /** cartSize: the quantities of the cart added up, in 64-bit arithmetic. */
  method CartSize(c: seq<Checkout.CartItem>) returns (r: Int64)
    ensures r == Wrap64(TotalQuantity(c))
    ensures Int64Min <= TotalQuantity(c) <= Int64Max ==> r == TotalQuantity(c)
  {
    r := 0;
    var i := 0;
    while i < |c|
      invariant 0 <= i <= |c|
      invariant r == Wrap64(TotalQuantity(c[..i]))
    {
      assert c[..i + 1][..i] == c[..i];
      WrapAdd(TotalQuantity(c[..i]), c[i].quantity);
      r := Wrap64(r + c[i].quantity);
      i := i + 1;
    }
    assert c[..i] == c;
  }

  /** Wrapping once at the end or after every addition gives the same 64-bit value. */
  lemma WrapAdd(x: int, q: int)
    ensures Wrap64(Wrap64(x) + q) == Wrap64(x + q)
  {
    var w := Wrap64(x);
    var k := (x - w) / Two64;
    assert x - w == k * Two64;
    assert (x + q) % Two64 == (w + q + k * Two64) % Two64;
    ModShift(w + q, k);
  }

  lemma ModShift(a: int, k: int)
    ensures (a + k * Two64) % Two64 == a % Two64
  {
  }

  /** cartIDs: the product id of every cart line, position by position. */
  method CartIDs(c: seq<Checkout.CartItem>) returns (r: seq<string>)
    ensures |r| == |c|
    ensures forall i :: 0 <= i < |c| ==> r[i] == c[i].productId
  {
    var out := new string[|c|];
    var i := 0;
    while i < |c|
      invariant 0 <= i <= |c|
      invariant forall j :: 0 <= j < i ==> out[j] == c[j].productId
    {
      out[i] := c[i].productId;
      i := i + 1;
    }
    r := out[..];
  }

  /** renderCurrencyLogo: the symbols the frontend knows, "$" for any other code. */
  function RenderCurrencyLogo(currencyCode: string): (r: string)
    ensures |r| == 1
    ensures r == "$" <==> currencyCode !in {"JPY", "EUR", "TRY", "GBP"}
  {
    var logos := map["USD" := "$", "CAD" := "$", "JPY" := "¥", "EUR" := "€", "TRY" := "₺", "GBP" := "£"];
    if currencyCode in logos then logos[currencyCode] else "$"
  }

  /** Go's `%02d`: the decimal form of `v`, padded with a leading zero to two characters. */
  function Pad2(v: int): (s: string)
    ensures |s| >= 2
    ensures v >= 0 ==> Text.AllDigits(s) && Text.DigitsValue(s) == v
    ensures 0 <= v < 10 ==> |s| == 2 && s[0] == '0'
    ensures 0 <= v < 100 ==> |s| == 2
    ensures v >= 10 || v < 0 ==> s == Text.IntToString(v)
  {
    var digits := Text.IntToString(v);
    if |digits| < 2 then
      assert v >= 0 && digits == [Text.DigitChar(v)];
      var s := "0" + digits;
      assert s[..|s| - 1] == "0" && s[..|s| - 1][..0] == [];
      assert Text.DigitsValue(s) == 10 * Text.DigitsValue("0") + v;
      s
    else
      if v >= 0 then
        Text.NatToStringRoundTrip(v);
        assert v < 100 ==> |Text.NatToString(v / 10)| == 1;
        digits
      else digits
  }

  /** renderMoney: logo, units, a dot and the hundredths, truncated toward zero. */
  function RenderMoney(m: Money): (r: string)
    ensures |r| >= 4 && r[..1] == RenderCurrencyLogo(m.currencyCode)
    ensures 0 <= m.nanos < NanosMod ==>
      r[|r| - 3] == '.' && Text.AllDigits(r[|r| - 2..]) && Text.DigitsValue(r[|r| - 2..]) == m.nanos / 10_000_000
  {
    RenderCurrencyLogo(m.currencyCode) + Text.IntToString(m.units) + "." + Pad2(GoQuo(m.nanos, 10000000))
  }

  /** stringinSlice: whether `val` occurs in the slice. */
  method StringInSlice(slice: seq<string>, val: string) returns (found: bool)
    ensures found <==> val in slice
  {
    var i := 0;
    while i < |slice|
      invariant 0 <= i <= |slice|
      invariant val !in slice[..i]
    {
      if slice[i] == val {
        return true;
      }
      assert slice[..i + 1] == slice[..i] + [slice[i]];
      i := i + 1;
    }
    assert slice[..i] == slice;
    return false;
  }

  /** The banner shown for each deployment platform. */
  function PlatformFor(env: string): (r: (string, string))
    ensures r == ("local", "local") <==> env !in {"aws", "onprem", "azure", "gcp", "alibaba"}
    ensures r.1 != "local" ==> r.1 == env + "-platform"
  {
    if env == "aws" then ("AWS", "aws-platform")
    else if env == "onprem" then ("On-Premises", "onprem-platform")
    else if env == "azure" then ("Azure", "azure-platform")
    else if env == "gcp" then ("Google Cloud", "gcp-platform")
    else if env == "alibaba" then ("Alibaba Cloud", "alibaba-platform")
    else ("local", "local")
  }

  class PlatformDetails {
    var css: string
    var provider: string

    constructor ()
      ensures css == "" && provider == ""
    {
      css := "";
      provider := "";
    }

    /** setPlatformDetails: the provider name and stylesheet class of the platform. */
    method SetPlatformDetails(env: string)
      modifies this
      ensures (provider, css) == PlatformFor(env)
    {
      if env == "aws" {
        provider, css := "AWS", "aws-platform";
      } else if env == "onprem" {
        provider, css := "On-Premises", "onprem-platform";
      } else if env == "azure" {
        provider, css := "Azure", "azure-platform";
      } else if env == "gcp" {
        provider, css := "Google Cloud", "gcp-platform";
      } else if env == "alibaba" {
        provider, css := "Alibaba Cloud", "alibaba-platform";
      } else {
        provider, css := "local", "local";
      }
    }
  }

  /**
   * The total shown after checkout: the shipping cost plus every order line's cost
   * times its quantity, summed in order through Must.
   */
  method TotalPaid(order: Checkout.OrderResult) returns (r: Panicky<Money>)
    ensures r == Checkout.AddItemCosts(order.shippingCost, order.items)
  {
    var total := order.shippingCost;
    var i := 0;
    while i < |order.items|
      invariant 0 <= i <= |order.items|
      invariant Checkout.AddItemCosts(total, order.items[i..])
             == Checkout.AddItemCosts(order.shippingCost, order.items)
    {
      var v := order.items[i];
      var line := MultiplySlow(v.cost, ToUint32(v.item.quantity));
      if line.Panicked? {
        return Panicked(line.cause);
      }
      var next := Must(Sum(total, line.value));
      if next.Panicked? {
        return Panicked(next.cause);
      }
      assert order.items[i..][1..] == order.items[i + 1..];
      total := next.value;
      i := i + 1;
    }
    r := Returned(total);
  }

  // ---- properties ----

  /** The known codes and the default. */
  lemma CurrencyLogos(code: string)
    ensures code == "USD" || code == "CAD" ==> RenderCurrencyLogo(code) == "$"
    ensures code == "JPY" ==> RenderCurrencyLogo(code) == "¥"
    ensures code == "EUR" ==> RenderCurrencyLogo(code) == "€"
    ensures code == "TRY" ==> RenderCurrencyLogo(code) == "₺"
    ensures code == "GBP" ==> RenderCurrencyLogo(code) == "£"
    ensures code !in {"USD", "CAD", "JPY", "EUR", "TRY", "GBP"} ==> RenderCurrencyLogo(code) == "$"
  {
  }

  /**
   * A non-negative amount with valid nanos renders as logo, units, a dot and exactly two
   * digits that denote the hundredths.
   */
  lemma RenderMoneyShape(m: Money)
    requires m.units >= 0 && 0 <= m.nanos <= NanosMax
    ensures exists cents: string ::
      && |cents| == 2 && Text.AllDigits(cents) && Text.DigitsValue(cents) == m.nanos / 10000000
      && RenderMoney(m) == RenderCurrencyLogo(m.currencyCode) + Text.NatToString(m.units) + "." + cents
  {
    var h := m.nanos / 10000000;
    assert GoQuo(m.nanos, 10000000) == h;
    Text.NatToStringRoundTrip(h);
    var cents := Pad2(h);
    if h < 10 {
      assert cents == "0" + Text.NatToString(h);
      assert cents[..1] == "0";
      assert Text.DigitsValue(cents[..1]) == 0;
      assert cents[..1] == ['0'] && cents[1] == Text.NatToString(h)[0];
      assert Text.DigitsValue(cents) == 10 * Text.DigitsValue(cents[..1]) + (cents[1] as int - '0' as int);
      assert Text.NatToString(h)[..0] == [];
    }
  }

  /** Negative nanos print their own minus sign after the dot. */
  lemma NegativeNanosPrintSecondSign(m: Money)
    requires m.units < 0 && -NanosMax <= m.nanos <= -10000000
    ensures RenderMoney(m) == RenderCurrencyLogo(m.currencyCode) + "-" + Text.NatToString(-(m.units as int))
      + "." + "-" + Text.NatToString(-(m.nanos as int) / 10000000)
  {
    var h := GoQuo(m.nanos, 10000000);
    assert h == -(-(m.nanos as int) / 10000000);
    assert h < 0;
  }

  /** The five known platforms get their own `<env>-platform` class; any other is local. */
  lemma PlatformClasses(env: string)
    ensures env in {"aws", "onprem", "azure", "gcp", "alibaba"} ==> PlatformFor(env).1 == env + "-platform"
    ensures env !in {"aws", "onprem", "azure", "gcp", "alibaba"} ==> PlatformFor(env) == ("local", "local")
  {
  }

  /**
   * The total shown agrees with the amount checkout charged whenever the shipping cost
   * is a valid amount in the user's currency that does not trip the zero-units borrow.
   */
  lemma TotalPaidMatchesCharge(currency: string, shipping: Money, items: seq<Checkout.OrderItem>)
    requires IsValid(shipping) && shipping.currencyCode == currency
    requires shipping.units != 0 || shipping.nanos == 0
    ensures Checkout.OrderTotal(currency, shipping, items) == Checkout.AddItemCosts(shipping, items)
  {
    SumWithZero(shipping, currency);
  }

  /** A sub-unit shipping cost is displayed from a different starting point than checkout uses. */
  lemma TotalPaidDiffersOnSubUnitShipping(currency: string, shipping: Money)
    requires IsValid(shipping) && shipping.currencyCode == currency
    requires shipping.units == 0 && shipping.nanos != 0
    ensures Checkout.OrderTotal(currency, shipping, []) == Returned(Money(currency, 1, shipping.nanos - NanosMod))
    ensures Checkout.AddItemCosts(shipping, []) == Returned(shipping)
  {
    SumWithZero(shipping, currency);
  }
}
