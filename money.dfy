/**
 * Exact decimal money of the checkout service: a currency code, a signed 64-bit
 * count of whole units and a signed 32-bit count of nano-units (10^-9).
 * Go's fixed-width integers are modelled by subset types, and every Go operation
 * that can wrap around is written with an explicit wrap.
 */
module Money {
  import opened Wrappers

  const NanosMin: int := -999_999_999
  const NanosMax: int := 999_999_999
  const NanosMod: int := 1_000_000_000

  const Int64Min: int := -0x8000_0000_0000_0000
  const Int64Max: int := 0x7fff_ffff_ffff_ffff
  const Int32Min: int := -0x8000_0000
  const Int32Max: int := 0x7fff_ffff
  const Two64: int := 0x1_0000_0000_0000_0000
  const Two32: int := 0x1_0000_0000

  type Int64 = x: int | -0x8000_0000_0000_0000 <= x <= 0x7fff_ffff_ffff_ffff
  type Int32 = x: int | -0x8000_0000 <= x <= 0x7fff_ffff
  type Uint32 = x: int | 0 <= x <= 0xffff_ffff

  /** Two's-complement wrap-around of a 64-bit signed result. */
  function Wrap64(x: int): (r: Int64)
    ensures Int64Min <= x <= Int64Max ==> r == x
    ensures (x - r) % Two64 == 0
  {
    var m := x % Two64;
    if m <= Int64Max then m else m - Two64
  }

  /** Two's-complement wrap-around of a 32-bit signed result. */
  function Wrap32(x: int): (r: Int32)
    ensures Int32Min <= x <= Int32Max ==> r == x
    ensures (x - r) % Two32 == 0
  {
    var m := x % Two32;
    if m <= Int32Max then m else m - Two32
  }

  /** Go's conversion `uint32(q)` of a signed 32-bit value. */
  function ToUint32(q: Int32): (r: Uint32)
    ensures q >= 0 ==> r == q
    ensures q < 0 ==> r == q + Two32
  {
    q % Two32
  }

  /** Go's integer division, which truncates toward zero. */
  function GoQuo(a: int, b: int): int
    requires b > 0
  {
    if a >= 0 then a / b else -((-a) / b)
  }

  /** Go's remainder: the dividend minus the truncated quotient times the divisor. */
  function GoRem(a: int, b: int): (r: int)
    requires b > 0
    ensures GoQuo(a, b) * b + r == a
    ensures a >= 0 ==> 0 <= r < b
    ensures a < 0 ==> -b < r <= 0
  {
    a - GoQuo(a, b) * b
  }

  datatype Money = Money(currencyCode: string, units: Int64, nanos: Int32)

  datatype MoneyError = ErrInvalidValue | ErrMismatchingCurrency

  /** The result of an expression evaluated through `Must`: a value, or a panic with the error. */
  datatype Panicky<+T> = Returned(value: T) | Panicked(cause: MoneyError)

  /** The amount a money value denotes, in nano-units. */
  function ValueOf(m: Money): int {
    m.units * NanosMod + m.nanos
  }

  /** Nanos strictly inside ±10^9, never of the opposite sign to the units. */
  predicate IsValid(m: Money)
    ensures IsValid(m) ==> -NanosMod < m.nanos < NanosMod
    ensures IsValid(m) ==> (m.units > 0 ==> m.nanos >= 0) && (m.units < 0 ==> m.nanos <= 0)
  {
    SignMatches(m) && ValidNanos(m.nanos)
  }

  predicate SignMatches(m: Money) {
    m.nanos == 0 || m.units == 0 || (m.nanos < 0) == (m.units < 0)
  }

  predicate ValidNanos(nanos: Int32) {
    NanosMin <= nanos <= NanosMax
  }

  predicate IsZero(m: Money) {
    m.units == 0 && m.nanos == 0
  }

  /** As in Go, `&&` binds tighter than `||`: the second disjunct does not check validity. */
  predicate IsPositive(m: Money) {
    (IsValid(m) && m.units > 0) || (m.units == 0 && m.nanos > 0)
  }

  predicate IsNegative(m: Money) {
    (IsValid(m) && m.units < 0) || (m.units == 0 && m.nanos < 0)
  }

  predicate AreSameCurrency(l: Money, r: Money) {
    l.currencyCode == r.currencyCode && l.currencyCode != ""
  }

  predicate AreEquals(l: Money, r: Money)
    ensures AreEquals(l, r) <==> l == r
  {
    l.currencyCode == r.currencyCode && l.units == r.units && l.nanos == r.nanos
  }

  /** Negation of both parts; Go's unary minus wraps at the minimum of each width. */
  function Negate(m: Money): (r: Money)
    ensures r.currencyCode == m.currencyCode
    ensures m.units != Int64Min ==> r.units == -m.units
    ensures m.units == Int64Min ==> r.units == Int64Min
    ensures m.nanos != Int32Min ==> r.nanos == -m.nanos
    ensures m.nanos == Int32Min ==> r.nanos == Int32Min
  {
    Money(m.currencyCode, Wrap64(-(m.units as int)), Wrap32(-(m.nanos as int)))
  }

  /** `Must`: an error becomes a panic. */
  function Must(res: Result<Money, MoneyError>): (r: Panicky<Money>)
    ensures r.Returned? <==> res.Success?
    ensures res.Failure? ==> r.cause == res.error
    ensures res.Success? ==> r.value == res.value
  {
    match res
    case Success(v) => Returned(v)
    case Failure(e) => Panicked(e)
  }

  /** The "same sign" test of Sum on the raw sums; it does not accept a zero unit sum with non-zero nanos. */
  predicate SameSignSums(units: int, nanos: int) {
    (units == 0 && nanos == 0) || (units > 0 && nanos >= 0) || (units < 0 && nanos <= 0)
  }

  function Sum(l: Money, r: Money): (res: Result<Money, MoneyError>)
    ensures !IsValid(l) || !IsValid(r) ==> res == Failure(ErrInvalidValue)
    ensures IsValid(l) && IsValid(r) && l.currencyCode != r.currencyCode ==> res == Failure(ErrMismatchingCurrency)
    ensures res.Success? <==> IsValid(l) && IsValid(r) && l.currencyCode == r.currencyCode
    ensures res.Success? ==> res.value.currencyCode == l.currencyCode
  {
    if !IsValid(l) || !IsValid(r) then
      Failure(ErrInvalidValue)
    else if l.currencyCode != r.currencyCode then
      Failure(ErrMismatchingCurrency)
    else
      var units := Wrap64(l.units + r.units);
      var nanos := Wrap32(l.nanos + r.nanos);
      if SameSignSums(units, nanos) then
        Success(Money(l.currencyCode, Wrap64(units + GoQuo(nanos, NanosMod)), Wrap32(GoRem(nanos, NanosMod))))
      else if units > 0 then
        Success(Money(l.currencyCode, Wrap64(units - 1), Wrap32(nanos + NanosMod)))
      else
        Success(Money(l.currencyCode, Wrap64(units + 1), Wrap32(nanos - NanosMod)))
  }

  /** The raw sums of Sum and its final carry or borrow stay within the widths of Go's integers. */
  predicate SumInRange(l: Money, r: Money) {
    && Int64Min < l.units + r.units < Int64Max
    && (l.units + r.units == 0 && l.nanos + r.nanos < 0 ==> l.nanos + r.nanos - NanosMod >= Int32Min)
  }

  /** `m` added to itself `k` more times, starting from `acc`, each step through Must(Sum(...)). */
  function AddRepeatedly(acc: Money, m: Money, k: nat): Panicky<Money>
    decreases k
  {
    if k == 0 then Returned(acc)
    else
      match Must(Sum(acc, m))
      case Panicked(e) => Panicked(e)
      case Returned(s) => AddRepeatedly(s, m, k - 1)
  }

  /** What MultiplySlow computes: `m` itself for n <= 1, otherwise `m` added to itself n - 1 times. */
  function Multiplied(m: Money, n: Uint32): Panicky<Money> {
    if n <= 1 then Returned(m) else AddRepeatedly(m, m, n - 1)
  }

  method MultiplySlow(m: Money, n: Uint32) returns (r: Panicky<Money>)
    ensures r == Multiplied(m, n)
    ensures n <= 1 ==> r == Returned(m)
  {
    var out := m;
    var k := n;
    while k > 1
      invariant 0 <= k <= n
      invariant k == 0 ==> n == 0 && out == m
      invariant k >= 1 ==> AddRepeatedly(out, m, k - 1) == Multiplied(m, n)
    {
      var step := Must(Sum(out, m));
      if step.Panicked? {
        return step;
      }
      out := step.value;
      k := k - 1;
    }
    return Returned(out);
  }

  // ---------------------------------------------------------------------------
  // Validity, sign tests and equality

  /**
   * A valid amount is the canonical split of its value: the units and nanos are Go's
   * truncating quotient and remainder of the value by 10^9.
   */
  lemma {:induction false} ValidIsCanonicalSplit(m: Money)
    ensures IsValid(m) <==> m.units == GoQuo(ValueOf(m), NanosMod) && m.nanos == GoRem(ValueOf(m), NanosMod)
  {
    var v := ValueOf(m);
    if IsValid(m) {
      if v >= 0 {
        assert m.units >= 0 && m.nanos >= 0;
        assert v / NanosMod == m.units;
      } else {
        assert m.units <= 0 && m.nanos <= 0;
        var u, n := -(m.units as int), -(m.nanos as int);
        assert -v == u * NanosMod + n;
        assert (-v) / NanosMod == u;
      }
    }
  }

  /** The sign tests agree with the amount on valid values. */
  lemma {:induction false} SignTestsMatchValue(m: Money)
    requires IsValid(m)
    ensures IsZero(m) <==> ValueOf(m) == 0
    ensures IsPositive(m) <==> ValueOf(m) > 0
    ensures IsNegative(m) <==> ValueOf(m) < 0
  {
    if m.units > 0 {
      assert m.units * NanosMod >= NanosMod;
    } else if m.units < 0 {
      assert m.units * NanosMod <= -NanosMod;
    }
  }

  /**
   * Because of Go's operator precedence, IsPositive holds exactly for the valid
   * positive amounts and, in addition, for every zero-unit value with positive nanos,
   * however large the nanos are.
   */
  lemma {:induction false} IsPositiveExactly(m: Money)
    ensures IsPositive(m) <==> (IsValid(m) && ValueOf(m) > 0) || (m.units == 0 && m.nanos > 0)
  {
    if IsValid(m) {
      SignTestsMatchValue(m);
    }
  }

  lemma {:induction false} IsNegativeExactly(m: Money)
    ensures IsNegative(m) <==> (IsValid(m) && ValueOf(m) < 0) || (m.units == 0 && m.nanos < 0)
  {
    if IsValid(m) {
      SignTestsMatchValue(m);
    }
  }

  /** Out-of-range nanos with zero units still count as positive. */
  lemma PositiveDespiteInvalidNanos(c: string)
    ensures !IsValid(Money(c, 0, NanosMod)) && IsPositive(Money(c, 0, NanosMod))
  {
  }

  /** Valid values have a unique representation: equal amounts have equal parts. */
  lemma {:induction false} ValidRepresentationUnique(a: Money, b: Money)
    requires IsValid(a) && IsValid(b)
    requires ValueOf(a) == ValueOf(b)
    ensures a.units == b.units && a.nanos == b.nanos
  {
    if a.units != b.units {
      assert false;
    }
  }

  /** On valid values, AreEquals is equality of currency and amount. */
  lemma {:induction false} AreEqualsIsSameAmount(a: Money, b: Money)
    requires IsValid(a) && IsValid(b)
    ensures AreEquals(a, b) <==> a.currencyCode == b.currencyCode && ValueOf(a) == ValueOf(b)
    ensures AreEquals(a, b) <==> a == b
  {
    if ValueOf(a) == ValueOf(b) {
      ValidRepresentationUnique(a, b);
    }
  }

  /** AreSameCurrency refuses two empty codes, which Sum accepts. */
  lemma EmptyCurrencyAcceptedBySum()
    ensures !AreSameCurrency(Money("", 1, 0), Money("", 2, 0))
    ensures Sum(Money("", 1, 0), Money("", 2, 0)) == Success(Money("", 3, 0))
  {
  }

  // ---------------------------------------------------------------------------
  // Negate

  lemma {:induction false} NegateValue(m: Money)
    requires m.units != Int64Min && m.nanos != Int32Min
    ensures ValueOf(Negate(m)) == -ValueOf(m)
    ensures Negate(Negate(m)) == m
    ensures Negate(m).currencyCode == m.currencyCode
  {
  }

  lemma {:induction false} NegatePreservesValid(m: Money)
    requires IsValid(m)
    requires m.units != Int64Min
    ensures IsValid(Negate(m))
    ensures IsPositive(m) <==> IsNegative(Negate(m))
  {
  }

  /** Negating the most negative unit count wraps back to itself, so the sign rule breaks. */
  lemma NegateMinUnitsInvalid(c: string)
    ensures IsValid(Money(c, Int64Min, -1))
    ensures Negate(Money(c, Int64Min, -1)) == Money(c, Int64Min, 1)
    ensures !IsValid(Negate(Money(c, Int64Min, -1)))
  {
  }

  lemma {:induction false} SumWithNegation(m: Money)
    requires IsValid(m)
    requires m.units != Int64Min
    ensures Sum(m, Negate(m)) == Success(Money(m.currencyCode, 0, 0))
  {
    NegatePreservesValid(m);
  }

  // ---------------------------------------------------------------------------
  // Sum

  lemma {:induction false} SumCommutative(l: Money, r: Money)
    ensures Sum(l, r) == Sum(r, l)
  {
  }

  /** On success, Sum keeps the exact amount unless an integer width is exceeded. */
  lemma {:induction false} SumExact(l: Money, r: Money)
    requires Sum(l, r).Success?
    requires SumInRange(l, r)
    ensures ValueOf(Sum(l, r).value) == ValueOf(l) + ValueOf(r)
    ensures Sum(l, r).value.currencyCode == l.currencyCode
  {
    var units := l.units + r.units;
    var nanos := l.nanos + r.nanos;
    assert Wrap64(units) == units;
    assert Wrap32(nanos) == nanos;
    var s := Sum(l, r).value;
    if SameSignSums(units, nanos) {
      var q := GoQuo(nanos, NanosMod);
      assert -1 <= q <= 1;
      assert s.units == units + q;
      assert s.nanos == GoRem(nanos, NanosMod);
    } else if units > 0 {
      assert s.units == units - 1 && s.nanos == nanos + NanosMod;
    } else {
      assert s.units == units + 1 && s.nanos == nanos - NanosMod;
    }
  }

  /** Sum yields a valid value whenever its raw unit sum is non-zero or its raw nanos sum is zero. */
  lemma {:induction false} SumValid(l: Money, r: Money)
    requires Sum(l, r).Success?
    requires Int64Min < l.units + r.units < Int64Max
    requires l.units + r.units != 0 || l.nanos + r.nanos == 0
    ensures IsValid(Sum(l, r).value)
  {
    var units := l.units + r.units;
    var nanos := l.nanos + r.nanos;
    assert Wrap64(units) == units;
    assert Wrap32(nanos) == nanos;
    var s := Sum(l, r).value;
    if SameSignSums(units, nanos) {
      var q := GoQuo(nanos, NanosMod);
      assert -1 <= q <= 1;
      assert s.units == units + q;
    } else if units > 0 {
      assert nanos < 0;
      assert s.units == units - 1 && s.nanos == nanos + NanosMod;
    } else {
      assert units < 0 && nanos > 0;
      assert s.units == units + 1 && s.nanos == nanos - NanosMod;
    }
  }

  /**
   * A zero raw unit sum with non-zero nanos takes the borrow branch: the units become 1
   * and the nanos drop by one unit (wrapping at 32 bits). The result is valid only when
   * the raw nanos reach a whole unit.
   */
  lemma {:induction false} SumZeroUnitsBorrow(l: Money, r: Money)
    requires Sum(l, r).Success?
    requires l.units + r.units == 0 && l.nanos + r.nanos != 0
    ensures Sum(l, r).value == Money(l.currencyCode, 1, Wrap32(l.nanos + r.nanos - NanosMod))
    ensures IsValid(Sum(l, r).value) <==> l.nanos + r.nanos >= NanosMod
  {
    var nanos := l.nanos + r.nanos;
    assert Wrap32(nanos) == nanos;
    assert !SameSignSums(0, nanos);
    var w := Wrap32(nanos - NanosMod);
    if nanos < 0 && nanos - NanosMod < Int32Min {
      assert w == nanos - NanosMod + Two32;
    }
  }

  /** The documented example of an invalid sum of two valid values. */
  lemma SumOfTwoSubUnitAmountsIsInvalid(c: string)
    ensures Sum(Money(c, 0, 500_000_000), Money(c, 0, 200_000_000)) == Success(Money(c, 1, -300_000_000))
    ensures !IsValid(Money(c, 1, -300_000_000))
  {
    SumZeroUnitsBorrow(Money(c, 0, 500_000_000), Money(c, 0, 200_000_000));
  }

  /** Two negative sub-unit amounts whose nanos wrap around at 32 bits. */
  lemma SumOfTwoNegativeSubUnitAmountsWraps(c: string)
    ensures Sum(Money(c, 0, -900_000_000), Money(c, 0, -800_000_000)) == Success(Money(c, 1, 1_594_967_296))
  {
    SumZeroUnitsBorrow(Money(c, 0, -900_000_000), Money(c, 0, -800_000_000));
  }

  /** Sum is not associative: the quirk makes one grouping fail. */
  lemma SumNotAssociative(c: string)
    ensures Sum(Money(c, 0, 500_000_000), Money(c, 0, 200_000_000)) == Success(Money(c, 1, -300_000_000))
    ensures Sum(Money(c, 1, -300_000_000), Money(c, 1, 0)) == Failure(ErrInvalidValue)
    ensures Sum(Money(c, 0, 200_000_000), Money(c, 1, 0)) == Success(Money(c, 1, 200_000_000))
    ensures Sum(Money(c, 0, 500_000_000), Money(c, 1, 200_000_000)) == Success(Money(c, 1, 700_000_000))
  {
    SumOfTwoSubUnitAmountsIsInvalid(c);
  }

  /** Opposite-sign borrow: 2.5 + (-1.8) = 0.7. */
  lemma SumBorrowExample()
    ensures Sum(Money("USD", 2, 500_000_000), Money("USD", -1, -800_000_000)) == Success(Money("USD", 0, 700_000_000))
  {
  }

  /** Adding to a zero of the same currency returns the other operand, except for zero-unit fractions. */
  lemma {:induction false} SumWithZero(m: Money, c: string)
    requires IsValid(m) && m.currencyCode == c
    ensures m.units != 0 || m.nanos == 0 ==> Sum(Money(c, 0, 0), m) == Success(m)
    ensures m.units == 0 && m.nanos != 0 ==> Sum(Money(c, 0, 0), m) == Success(Money(c, 1, m.nanos - NanosMod))
  {
    var z := Money(c, 0, 0);
    assert Wrap64(z.units + m.units) == m.units;
    assert Wrap32(z.nanos + m.nanos) == m.nanos;
    if m.units != 0 || m.nanos == 0 {
      assert SameSignSums(m.units, m.nanos);
      assert GoQuo(m.nanos, NanosMod) == 0;
    } else {
      SumZeroUnitsBorrow(z, m);
    }
  }

  // ---------------------------------------------------------------------------
  // MultiplySlow

  /**
   * Repeated addition of a valid non-negative amount keeps the exact amount,
   * as long as the unit counts stay within 64 bits.
   */
  lemma {:induction false} AddRepeatedlyValue(acc: Money, m: Money, k: nat, o: Money)
    requires IsValid(m) && m.units >= 0 && m.nanos >= 0
    requires acc.units >= 0
    requires acc.units + k * (m.units + 1) <= Int64Max
    requires AddRepeatedly(acc, m, k) == Returned(o)
    ensures ValueOf(o) == ValueOf(acc) + k * ValueOf(m)
    decreases k
  {
    if k > 0 {
      AddRepeatedlyStep(acc, m, k, o);
      var s := Sum(acc, m).value;
      AddRepeatedlyValue(s, m, k - 1, o);
      ValueStep(ValueOf(o), ValueOf(s), ValueOf(acc), ValueOf(m), k);
    }
  }

  /** One step of AddRepeatedly: the partial sum is exact, non-negative, and leaves room for the remaining steps. */
  lemma AddRepeatedlyStep(acc: Money, m: Money, k: nat, o: Money)
    requires IsValid(m) && m.units >= 0 && m.nanos >= 0
    requires acc.units >= 0
    requires k > 0
    requires acc.units + k * (m.units + 1) <= Int64Max
    requires AddRepeatedly(acc, m, k) == Returned(o)
    ensures Sum(acc, m).Success?
    ensures var s := Sum(acc, m).value;
      && AddRepeatedly(s, m, k - 1) == Returned(o)
      && s.units >= 0
      && s.units + (k - 1) * (m.units + 1) <= Int64Max
      && ValueOf(s) == ValueOf(acc) + ValueOf(m)
  {
    AddRepeatedlyUnfold(acc, m, k, o);
    UnitsBoundStep(acc.units, m.units, k);
    SumInRangeFromNonNegative(acc, m);
    SumExact(acc, m);
    SumUnitsGrowth(acc, m);
    UnitsBoundShift(acc.units, Sum(acc, m).value.units, m.units, k);
  }

  lemma AddRepeatedlyUnfold(acc: Money, m: Money, k: nat, o: Money)
    requires k > 0
    requires AddRepeatedly(acc, m, k) == Returned(o)
    ensures Sum(acc, m).Success?
    ensures AddRepeatedly(Sum(acc, m).value, m, k - 1) == Returned(o)
  {
  }

  lemma SumInRangeFromNonNegative(acc: Money, m: Money)
    requires IsValid(acc) && IsValid(m) && m.units >= 0 && m.nanos >= 0
    requires acc.units >= 0 && acc.units + m.units < Int64Max
    ensures SumInRange(acc, m)
  {
  }

  lemma UnitsBoundStep(a: int, u: int, k: int)
    requires k >= 1 && u >= 0
    requires a + k * (u + 1) <= Int64Max
    ensures a + u < Int64Max
  {
    MulNonNegative(k - 1, u + 1);
    MulSucc(k, u + 1);
  }

  lemma UnitsBoundShift(a: int, s: int, u: int, k: int)
    requires k >= 1 && u >= 0
    requires s <= a + u + 1
    requires a + k * (u + 1) <= Int64Max
    ensures s + (k - 1) * (u + 1) <= Int64Max
  {
    MulSucc(k, u + 1);
  }

  lemma ValueStep(vo: int, vs: int, va: int, vm: int, k: int)
    requires vo == vs + (k - 1) * vm
    requires vs == va + vm
    ensures vo == va + k * vm
  {
    MulSucc(k, vm);
  }

  lemma MulSucc(k: int, x: int)
    ensures k * x == (k - 1) * x + x
  {
  }

  lemma MulNonNegative(a: int, b: int)
    requires a >= 0 && b >= 0
    ensures a * b >= 0
  {
  }

  /** One step of repeated addition of a non-negative amount moves the units by at most one more than m's. */
  lemma {:induction false} SumUnitsGrowth(acc: Money, m: Money)
    requires IsValid(m) && m.units >= 0 && m.nanos >= 0
    requires acc.units >= 0
    requires acc.units + m.units < Int64Max
    requires Sum(acc, m).Success?
    ensures 0 <= Sum(acc, m).value.units <= acc.units + m.units + 1
  {
    var units := acc.units + m.units;
    var nanos := acc.nanos + m.nanos;
    assert Wrap64(units) == units;
    assert Wrap32(nanos) == nanos;
    var s := Sum(acc, m).value;
    if SameSignSums(units, nanos) {
      var q := GoQuo(nanos, NanosMod);
      assert 0 <= q <= 1;
      assert s.units == units + q;
    } else if units > 0 {
      assert s.units == units - 1;
    } else {
      assert s.units == units + 1;
    }
  }

  /** MultiplySlow of a valid non-negative amount by n >= 1, when it returns, returns n times the amount. */
  lemma {:induction false} MultipliedValue(m: Money, n: Uint32, o: Money)
    requires IsValid(m) && m.units >= 0 && m.nanos >= 0
    requires n >= 1
    requires n * (m.units + 1) <= Int64Max
    requires Multiplied(m, n) == Returned(o)
    ensures ValueOf(o) == n * ValueOf(m)
    ensures o.currencyCode == m.currencyCode
  {
    if n > 1 {
      assert m.units + (n - 1) * (m.units + 1) <= n * (m.units + 1);
      AddRepeatedlyValue(m, m, n - 1, o);
      AddRepeatedlyCurrency(m, m, n - 1, o);
    }
  }

  /** A valid amount of at least one whole unit, positive or negative as `positive` says. */
  predicate WholeUnitsOfSign(m: Money, positive: bool) {
    IsValid(m) && if positive then m.units >= 1 else m.units <= -1
  }

  /** The size of a unit count of the given sign. */
  function Magnitude(units: int, positive: bool): int {
    if positive then units else -units
  }

  /**
   * Two whole-unit amounts of the same sign always take Sum's same-sign branch: the sum
   * succeeds, is exact, keeps the sign and grows the units by at most one carry.
   */
  lemma {:induction false} SumOfSameSignWholeUnits(acc: Money, m: Money, positive: bool)
    requires WholeUnitsOfSign(acc, positive) && WholeUnitsOfSign(m, positive)
    requires acc.currencyCode == m.currencyCode
    requires Magnitude(acc.units, positive) + Magnitude(m.units, positive) < Int64Max
    ensures Sum(acc, m).Success?
    ensures var s := Sum(acc, m).value;
      && WholeUnitsOfSign(s, positive)
      && s.currencyCode == acc.currencyCode
      && ValueOf(s) == ValueOf(acc) + ValueOf(m)
      && Magnitude(s.units, positive) <= Magnitude(acc.units, positive) + Magnitude(m.units, positive) + 1
  {
    var units := acc.units + m.units;
    var nanos := acc.nanos + m.nanos;
    assert Wrap64(units) == units;
    assert Wrap32(nanos) == nanos;
    assert SameSignSums(units, nanos);
    var q := GoQuo(nanos, NanosMod);
    assert -1 <= q <= 1;
    var s := Sum(acc, m).value;
    assert s.units == units + q;
    assert s.nanos == GoRem(nanos, NanosMod);
  }

  /** Repeated addition of a whole-unit amount never panics while the units fit in 64 bits, and is exact. */
  lemma {:induction false} AddRepeatedlyWholeUnits(acc: Money, m: Money, k: nat, positive: bool)
    requires WholeUnitsOfSign(acc, positive) && WholeUnitsOfSign(m, positive)
    requires acc.currencyCode == m.currencyCode
    requires Magnitude(acc.units, positive) + k * (Magnitude(m.units, positive) + 1) <= Int64Max
    ensures AddRepeatedly(acc, m, k).Returned?
    ensures var o := AddRepeatedly(acc, m, k).value;
      WholeUnitsOfSign(o, positive) && o.currencyCode == acc.currencyCode && ValueOf(o) == ValueOf(acc) + k * ValueOf(m)
    decreases k
  {
    if k > 0 {
      var a := Magnitude(acc.units, positive);
      var u := Magnitude(m.units, positive);
      UnitsBoundStep(a, u, k);
      SumOfSameSignWholeUnits(acc, m, positive);
      var s := Sum(acc, m).value;
      UnitsBoundShift(a, Magnitude(s.units, positive), u, k);
      AddRepeatedlyWholeUnits(s, m, k - 1, positive);
      var o := AddRepeatedly(s, m, k - 1).value;
      ValueStep(ValueOf(o), ValueOf(s), ValueOf(acc), ValueOf(m), k);
    }
  }

  /**
   * MultiplySlow of a valid amount of at least one whole unit, of either sign, returns
   * a valid amount of the same sign and currency, n times the amount for n >= 1, as long
   * as n times one more than the unit count fits in 64 bits.
   */
  lemma {:induction false} MultipliedReturns(m: Money, n: Uint32)
    requires IsValid(m) && m.units != 0
    requires n * (Magnitude(m.units, m.units > 0) + 1) <= Int64Max
    ensures Multiplied(m, n).Returned?
    ensures IsValid(Multiplied(m, n).value) && Multiplied(m, n).value.currencyCode == m.currencyCode
    ensures WholeUnitsOfSign(Multiplied(m, n).value, m.units > 0)
    ensures n >= 1 ==> ValueOf(Multiplied(m, n).value) == n * ValueOf(m)
  {
    if n > 1 {
      var positive := m.units > 0;
      var u := Magnitude(m.units, positive);
      assert u + (n - 1) * (u + 1) <= n * (u + 1);
      AddRepeatedlyWholeUnits(m, m, n - 1, positive);
      ValueStep(ValueOf(Multiplied(m, n).value), ValueOf(m), 0, ValueOf(m), n);
    }
  }

  /**
   * A negative sub-unit amount can wrap: doubling {0, -0.9} borrows to nanos below the
   * int32 range, which wrap to a positive amount. MultipliedValue and MultipliedReturns
   * leave negative sub-unit amounts out for this reason.
   */
  lemma MultipliedNegativeFractionWraps(c: string)
    ensures Multiplied(Money(c, 0, -900_000_000), 2) == Returned(Money(c, 1, 1_494_967_296))
    ensures ValueOf(Money(c, 1, 1_494_967_296)) > 0
  {
    SumZeroUnitsBorrow(Money(c, 0, -900_000_000), Money(c, 0, -900_000_000));
  }

  lemma {:induction false} AddRepeatedlyCurrency(acc: Money, m: Money, k: nat, o: Money)
    requires AddRepeatedly(acc, m, k) == Returned(o)
    ensures o.currencyCode == acc.currencyCode
    decreases k
  {
    if k > 0 {
      var s := Sum(acc, m).value;
      AddRepeatedlyCurrency(s, m, k - 1, o);
    }
  }

  /**
   * A zero-unit price below half a unit panics once the quantity reaches 3:
   * the first addition yields an invalid value, and the second one refuses it.
   */
  lemma {:induction false} MultipliedPanicsOnSmallFraction(m: Money, n: Uint32)
    requires IsValid(m) && m.units == 0 && 0 < m.nanos < NanosMod / 2
    requires n >= 3
    ensures Multiplied(m, n) == Panicked(ErrInvalidValue)
  {
    SumZeroUnitsBorrow(m, m);
    var s := Sum(m, m).value;
    assert !IsValid(s);
    assert AddRepeatedly(m, m, n - 1) == AddRepeatedly(s, m, n - 2);
  }

  /** A zero-unit price of exactly half a unit doubles correctly through the borrow branch. */
  lemma HalfUnitDoubles(c: string)
    ensures Multiplied(Money(c, 0, 500_000_000), 2) == Returned(Money(c, 1, 0))
  {
    SumZeroUnitsBorrow(Money(c, 0, 500_000_000), Money(c, 0, 500_000_000));
  }

  /** Zero times any quantity is zero. */
  lemma {:induction false} MultipliedZero(c: string, n: Uint32)
    ensures Multiplied(Money(c, 0, 0), n) == Returned(Money(c, 0, 0))
  {
    if n > 1 {
      AddRepeatedlyZero(c, n - 1);
    }
  }

  lemma {:induction false} AddRepeatedlyZero(c: string, k: nat)
    ensures AddRepeatedly(Money(c, 0, 0), Money(c, 0, 0), k) == Returned(Money(c, 0, 0))
  {
    if k > 0 {
      SumWithZero(Money(c, 0, 0), c);
      AddRepeatedlyZero(c, k - 1);
    }
  }
}
