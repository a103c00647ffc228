/** Amounts: a float64 in the payment structs, whole cents at Stripe, a two-decimal string at PayPal
    (internal/payment/stripe_provider.go, internal/payment/paypal_provider.go).

    Bounds are proved of any operation whose result has a relative error of at most 2^-53. Where it matters which
    neighbour is chosen, the operation is binary64's: round to nearest, ties to even (section 4.3.1 of IEEE 754-2019),
    which is proved to be such an operation. */
module Money {
  import opened Errors

  const TWO_51 := 0x8_0000_0000_0000

  const UNIT_ROUNDOFF: real := 1.0 / 9007199254740992.0

  /** `fl` is a possible result of rounding the non-negative number `exact`. */
  predicate Rounds(exact: real, fl: real) {
    exact - exact * UNIT_ROUNDOFF <= fl <= exact + exact * UNIT_ROUNDOFF
  }

  /** `int64(product)`, where product is the rounded amount*100. */
  function StripeCents(product: real): int {
    Truncate(product)
  }

  /** The cents that `fmt.Sprintf("%.2f", amount)` prints: the nearest, and the even one of two. */
  function PrintedCents(amount: real): int {
    var x := amount * 100.0;
    var down := x.Floor;
    if x - down as real < 0.5 then down
    else if x - down as real > 0.5 then down + 1
    else if down % 2 == 0 then down
    else down + 1
  }

  /** The printed cents are nearest to the amount, of any sign, and even where two are. */
  lemma PrintedIsNearest(amount: real, c: int)
    ensures PrintedCents(amount) as real - 0.5 <= amount * 100.0 <= PrintedCents(amount) as real + 0.5
    ensures c as real - 0.5 < amount * 100.0 < c as real + 0.5 ==> PrintedCents(amount) == c
    ensures amount * 100.0 == c as real + 0.5 ==> PrintedCents(amount) == if c % 2 == 0 then c else c + 1
  {
    var x := amount * 100.0;
    var down := x.Floor;
    if x == c as real + 0.5 {
      assert down == c;
    } else if c as real - 0.5 < x < c as real + 0.5 {
      assert down == c || down == c - 1;
    }
  }

  // ---------------------------------------------------------------------------------------
  // One conversion
  // ---------------------------------------------------------------------------------------

  /** A whole-cent amount up to 2^51 cents, stored as a float and multiplied by 100, truncates to its cents or to one
      less; printed with two decimals it is exact. `amount` is also what a webhook makes of `c` cents divided by 100, so
      the same holds for a charge reported by a webhook and refunded. */
  lemma CentsBound(c: int, amount: real, product: real)
    requires 0 <= c <= TWO_51
    requires Rounds(c as real / 100.0, amount) && Rounds(amount * 100.0, product)
    ensures StripeCents(product) == c || StripeCents(product) == c - 1
    ensures c == 0 ==> StripeCents(product) == 0
    ensures StripeCents(product) == c <==> product >= c as real
    ensures PrintedCents(amount) == c
  {
    var x := c as real;
    assert x / 100.0 * 100.0 == x;
    assert x - x * UNIT_ROUNDOFF <= amount * 100.0 <= x + x * UNIT_ROUNDOFF;
    assert x * UNIT_ROUNDOFF <= 0.25;
    var y := amount * 100.0;
    assert y * UNIT_ROUNDOFF <= 0.26;
    assert x - 1.0 < product < x + 1.0;
  }

  // ---------------------------------------------------------------------------------------
  // binary64
  // ---------------------------------------------------------------------------------------

  const TWO_52 := 0x10_0000_0000_0000
  const TWO_53 := 0x20_0000_0000_0000

  /** m2^e */
  ghost function Scaled(m: int, e: int): real
    decreases if e < 0 then -e else e
  {
    if e == 0 then m as real else if e > 0 then 2.0 * Scaled(m, e - 1) else Scaled(m, e + 1) / 2.0
  }

  /** A positive number with a 53-bit significand; the exponent is not bounded. */
  datatype Float = Float(m: int, e: int) {
    ghost predicate Normal() { TWO_52 <= m < TWO_53 }

    ghost function Value(): real { Scaled(m, e) }

    /** The unit in the last place. */
    ghost function Ulp(): real { Scaled(1, e) }

    /** The number just below. */
    function Below(): Float { if m > TWO_52 then Float(m - 1, e) else Float(TWO_53 - 1, e - 1) }
  }

  function Distance(x: real, y: real): real {
    if x <= y then y - x else x - y
  }

  /** f is the nearest number to x, and of two the one with the even significand. */
  ghost predicate RoundsToEven(x: real, f: Float) {
    && f.Normal()
    && forall g: Float | g.Normal() ::
         && Distance(x, f.Value()) <= Distance(x, g.Value())
         && (Distance(x, f.Value()) == Distance(x, g.Value()) && g != f ==> f.m % 2 == 0)
  }

  lemma Doubles(m: int, e: int)
    ensures Scaled(m, e + 1) == 2.0 * Scaled(m, e)
  {
  }

  lemma {:induction false} AddsUp(m: int, n: int, e: int)
    ensures Scaled(m + n, e) == Scaled(m, e) + Scaled(n, e)
    decreases if e < 0 then -e else e
  {
    if e > 0 {
      AddsUp(m, n, e - 1);
    } else if e < 0 {
      AddsUp(m, n, e + 1);
    }
  }

  lemma {:induction false} Positive(m: int, e: int)
    ensures m >= 0 ==> Scaled(m, e) >= 0.0
    ensures m > 0 ==> Scaled(m, e) > 0.0
    decreases if e < 0 then -e else e
  {
    if e > 0 {
      Positive(m, e - 1);
    } else if e < 0 {
      Positive(m, e + 1);
    }
  }

  lemma Monotone(m: int, n: int, e: int)
    requires m <= n
    ensures Scaled(m, e) <= Scaled(n, e) && (m < n ==> Scaled(m, e) + Scaled(1, e) <= Scaled(n, e))
  {
    AddsUp(m, n - m, e);
    Positive(n - m, e);
    AddsUp(1, n - m - 1, e);
    Positive(n - m - 1, e);
  }

  lemma {:induction false} Widens(m: int, d: int, e: int)
    requires m >= 0 && d <= e
    ensures Scaled(m, d) <= Scaled(m, e)
    decreases e - d
  {
    if d < e {
      Widens(m, d, e - 1);
      Doubles(m, e - 1);
      Positive(m, e - 1);
    }
  }

  lemma Renormal(m: int, e: int)
    ensures Scaled(2 * m, e) == Scaled(m, e + 1)
  {
    AddsUp(m, m, e);
    Doubles(m, e);
  }

  /** Nothing lies between a number and the one below it, or within its last place above it. */
  lemma Apart(f: Float, g: Float)
    requires f.Normal() && g.Normal() && g != f
    ensures g.Value() <= f.Below().Value() || g.Value() >= f.Value() + f.Ulp()
  {
    if g.e == f.e {
      if g.m < f.m {
        Monotone(g.m, f.m - 1, f.e);
      } else {
        Monotone(f.m, g.m, f.e);
      }
    } else if g.e > f.e {
      Monotone(TWO_52, g.m, g.e);
      Widens(TWO_52, f.e + 1, g.e);
      Renormal(TWO_52, f.e);
      Monotone(f.m, TWO_53, f.e);
    } else {
      Monotone(g.m, TWO_53 - 1, g.e);
      Widens(TWO_53 - 1, g.e, f.e - 1);
      if f.m > TWO_52 {
        Monotone(TWO_53 - 1, TWO_53, f.e - 1);
        Renormal(TWO_52, f.e - 1);
        Monotone(TWO_52, f.m - 1, f.e);
      }
    }
  }

  lemma BelowInside(f: Float)
    requires f.Normal() && f.m > TWO_52
    ensures f.Below().Value() == f.Value() - f.Ulp()
  {
    AddsUp(f.m - 1, 1, f.e);
  }

  lemma BelowPower(f: Float)
    requires f.Normal() && f.m == TWO_52
    ensures f.Below().Value() == f.Value() - f.Ulp() / 2.0
  {
    var below, half := Scaled(TWO_53 - 1, f.e - 1), Scaled(1, f.e - 1);
    AddsUp(TWO_53 - 1, 1, f.e - 1);
    Renormal(TWO_52, f.e - 1);
    Doubles(1, f.e - 1);
  }

  lemma BelowIsNext(f: Float)
    requires f.Normal()
    ensures f.Below().Normal()
    ensures f.Below().Value() == f.Value() - if f.m > TWO_52 then f.Ulp() else f.Ulp() / 2.0
    ensures f.Ulp() > 0.0
  {
    Positive(1, f.e);
    if f.m > TWO_52 {
      BelowInside(f);
    } else {
      BelowPower(f);
    }
  }

  lemma SameValue(f: Float, g: Float)
    requires f.Normal() && g.Normal() && f.Value() == g.Value()
    ensures f == g
  {
    if f != g {
      Apart(f, g);
      BelowIsNext(f);
    }
  }

  /** The whole numbers up to 2^53 are among them, those up to 2^52 with an even significand. */
  lemma {:induction false} Whole(c: int) returns (f: Float)
    requires 0 < c < TWO_53
    ensures f.Normal() && f.Value() == c as real
    ensures c % 2 == 0 || c < TWO_52 ==> f.m % 2 == 0
    decreases TWO_53 - c
  {
    if c >= TWO_52 {
      f := Float(c, 0);
    } else {
      var g := Whole(2 * c);
      f := Float(g.m, g.e - 1);
      Doubles(g.m, g.e - 1);
    }
  }

  /** Every number in the range of the amounts lies between two neighbours. */
  lemma {:induction false} Between(x: real, k: int) returns (f: Float)
    requires 0 <= k && Scaled(TWO_52, -k) <= x < TWO_53 as real
    ensures f.Normal() && f.Value() <= x < f.Value() + f.Ulp()
    decreases k
  {
    if x >= TWO_52 as real {
      f := Float(x.Floor, 0);
    } else {
      Doubles(TWO_52, -k);
      var g := Between(2.0 * x, k - 1);
      f := Float(g.m, g.e - 1);
      Doubles(g.m, g.e - 1);
      Doubles(1, g.e - 1);
    }
  }

  lemma {:induction false} ManyUlps(e: int)
    ensures Scaled(TWO_52, e) == 4503599627370496.0 * Scaled(1, e)
    decreases if e < 0 then -e else e
  {
    if e > 0 {
      ManyUlps(e - 1);
    } else if e < 0 {
      ManyUlps(e + 1);
    }
  }

  lemma Tenfold(m: int, e: int)
    ensures Scaled(m, e) == 1024.0 * Scaled(m, e - 10)
  {
    Doubles(m, e - 1);
    Doubles(m, e - 2);
    Doubles(m, e - 3);
    Doubles(m, e - 4);
    Doubles(m, e - 5);
    Doubles(m, e - 6);
    Doubles(m, e - 7);
    Doubles(m, e - 8);
    Doubles(m, e - 9);
    Doubles(m, e - 10);
  }

  /** m over 2^40. */
  lemma Fortieth(m: int, e: int)
    ensures Scaled(m, e) == 1099511627776.0 * Scaled(m, e - 40)
  {
    Tenfold(m, e);
    Tenfold(m, e - 10);
    Tenfold(m, e - 20);
    Tenfold(m, e - 30);
  }

  lemma SmallestAmount()
    ensures Scaled(TWO_52, -60) == 1.0 / 256.0
  {
    Fortieth(TWO_52, 0);
    Tenfold(TWO_52, -40);
    Tenfold(TWO_52, -50);
  }

  /** binary64 rounding has a relative error of at most 2^-53. */
  lemma NearestIsClose(x: real, f: Float)
    requires 1.0 / 256.0 <= x < TWO_53 as real && RoundsToEven(x, f)
    ensures Rounds(x, f.Value())
  {
    SmallestAmount();
    var g := Between(x, 60);
    var above := if g.m + 1 < TWO_53 then Float(g.m + 1, g.e) else Float(TWO_52, g.e + 1);
    AddsUp(g.m, 1, g.e);
    Renormal(TWO_52, g.e);
    assert above.Normal() && above.Value() == g.Value() + g.Ulp();
    assert Distance(x, f.Value()) <= Distance(x, g.Value()) && Distance(x, f.Value()) <= Distance(x, above.Value());
    ManyUlps(g.e);
    Monotone(TWO_52, g.m, g.e);
    assert Distance(x, f.Value()) <= g.Ulp() / 2.0;
    assert x * UNIT_ROUNDOFF >= g.Ulp() / 2.0;
  }

  /** A number less than half a unit away is the nearest; at half a unit, if its significand is even. (Below a power
      of two the numbers are closer.) */
  lemma WithinHalf(x: real, f: Float)
    requires f.Normal() && (f.m > TWO_52 || x >= f.Value())
    requires Distance(x, f.Value()) < f.Ulp() / 2.0 || (Distance(x, f.Value()) == f.Ulp() / 2.0 && f.m % 2 == 0)
    ensures RoundsToEven(x, f)
  {
    BelowIsNext(f);
    forall g: Float | g.Normal() && g != f
      ensures Distance(x, f.Value()) <= Distance(x, g.Value())
      ensures Distance(x, f.Value()) == Distance(x, g.Value()) ==> f.m % 2 == 0
    {
      Apart(f, g);
    }
  }

  lemma Sixfold(m: int, e: int)
    ensures Scaled(m, e) == 64.0 * Scaled(m, e - 6)
  {
    Doubles(m, e - 1);
    Doubles(m, e - 2);
    Doubles(m, e - 3);
    Doubles(m, e - 4);
    Doubles(m, e - 5);
    Doubles(m, e - 6);
  }

  /** The scales of the numbers below. */
  lemma Unscaled(m: int)
    ensures Scaled(m, -46) == m as real / 70368744177664.0
    ensures Scaled(m, -48) == m as real / 281474976710656.0
    ensures Scaled(m, -52) == m as real / 4503599627370496.0
    ensures Scaled(m, -54) == m as real / 18014398509481984.0
    ensures Scaled(m, -59) == m as real / 576460752303423488.0
  {
    Fortieth(m, 0);
    Sixfold(m, -40);
    Doubles(m, -47);
    Doubles(m, -48);
    Sixfold(m, -46);
    Sixfold(m, -48);
    Sixfold(m, -54);
    Doubles(m, -60);
  }

  /** What binary64 makes of c cents on the way to Stripe: the stored amount, and its product with 100. */
  ghost predicate Binary64Converts(c: int, amount: Float, product: Float) {
    RoundsToEven(c as real / 100.0, amount) && RoundsToEven(amount.Value() * 100.0, product)
  }

  lemma ConversionIsClose(c: int, amount: Float, product: Float)
    requires 0 < c <= TWO_51 && Binary64Converts(c, amount, product)
    ensures Rounds(c as real / 100.0, amount.Value()) && Rounds(amount.Value() * 100.0, product.Value())
  {
    var x := c as real / 100.0;
    NearestIsClose(x, amount);
    assert x - x * UNIT_ROUNDOFF >= 0.009 && x + x * UNIT_ROUNDOFF <= 50000000000000.0;
    NearestIsClose(amount.Value() * 100.0, product);
  }

  /** When the truncation is exact: the stored amount times 100 is at or above the middle between c and the binary64
      number just below c. In the middle itself the product rounds to c, whose significand is even. */
  lemma TruncationExactIff(c: int, amount: Float, product: Float) returns (cents: Float)
    requires 0 < c <= TWO_51 && Binary64Converts(c, amount, product)
    ensures cents.Normal() && cents.Value() == c as real
    ensures StripeCents(product.Value()) == c <==> amount.Value() * 100.0 >= (cents.Below().Value() + c as real) / 2.0
  {
    cents := Whole(c);
    ConversionIsClose(c, amount, product);
    CentsBound(c, amount.Value(), product.Value());
    BelowIsNext(cents);
    NotBelowIff(amount.Value() * 100.0, cents, product);
  }

  lemma NotBelowIff(x: real, f: Float, product: Float)
    requires f.Normal() && f.m % 2 == 0 && RoundsToEven(x, product)
    ensures product.Value() >= f.Value() <==> x >= (f.Below().Value() + f.Value()) / 2.0
  {
    var below := f.Below();
    BelowIsNext(f);
    assert Distance(x, product.Value()) <= Distance(x, f.Value());
    assert Distance(x, product.Value()) <= Distance(x, below.Value());
    if product.Value() < f.Value() && x >= (below.Value() + f.Value()) / 2.0 {
      Apart(f, product);
      assert product.Value() == below.Value();
      SameValue(product, below);
      assert false;
    }
  }

  /** The tie happens: the float nearest to 1.17, times 100, is exactly in the middle below 117. */
  lemma OneSeventeenTies() returns (amount: Float, product: Float)
    ensures Binary64Converts(117, amount, product)
    ensures amount.Value() == 658651445502935.0 / 562949953421312.0 && product.Value() == 117.0
    ensures amount.Value() * 100.0 == (product.Below().Value() + 117.0) / 2.0
    ensures StripeCents(product.Value()) == 117
  {
    amount, product := Float(5269211564023480, -52), Float(8233143068786688, -46);
    Unscaled(5269211564023480);
    Unscaled(8233143068786688);
    Unscaled(1);
    WithinHalf(1.17, amount);
    BelowIsNext(product);
    WithinHalf(amount.Value() * 100.0, product);
  }

  /** The loss is real: the float nearest to 0.29, times 100, rounds to the float just below 29 and truncates to 28. */
  lemma TwentyNineCents() returns (amount: Float, product: Float)
    ensures Binary64Converts(29, amount, product)
    ensures amount.Value() == 5224175567749775.0 / 18014398509481984.0
    ensures product.Value() == 8162774324609023.0 / 281474976710656.0
    ensures StripeCents(product.Value()) == 28 && PrintedCents(amount.Value()) == 29
  {
    amount, product := Float(5224175567749775, -54), Float(8162774324609023, -48);
    Unscaled(5224175567749775);
    Unscaled(8162774324609023);
    Unscaled(1);
    WithinHalf(0.29, amount);
    WithinHalf(amount.Value() * 100.0, product);
    ConversionIsClose(29, amount, product);
    CentsBound(29, amount.Value(), product.Value());
  }

  // ---------------------------------------------------------------------------------------
  // Partial refunds
  // ---------------------------------------------------------------------------------------

  function Sum(amounts: seq<real>): real {
    if |amounts| == 0 then 0.0 else Sum(amounts[..|amounts| - 1]) + amounts[|amounts| - 1]
  }

  function SumInts(cents: seq<int>): int {
    if |cents| == 0 then 0 else SumInts(cents[..|cents| - 1]) + cents[|cents| - 1]
  }

  /** The cents refunded in exact arithmetic. */
  function RefundedCents(amounts: seq<real>): int {
    if |amounts| == 0 then 0
    else RefundedCents(amounts[..|amounts| - 1]) + StripeCents(amounts[|amounts| - 1] * 100.0)
  }

  lemma {:induction false} TruncationLosesLessThanACentEach(amounts: seq<real>)
    requires forall i: nat | i < |amounts| :: amounts[i] >= 0.0
    ensures RefundedCents(amounts) as real <= Sum(amounts) * 100.0
    ensures |amounts| > 0 ==> Sum(amounts) * 100.0 < (RefundedCents(amounts) + |amounts|) as real
    ensures Sum(amounts) >= 0.0
  {
    if |amounts| > 0 {
      TruncationLosesLessThanACentEach(amounts[..|amounts| - 1]);
    }
  }

  /** In exact arithmetic partial refunds of a charge never refund more cents than were charged, and n of them fall
      short of the truncated sum of their amounts by less than n cents. */
  lemma PartialRefundsStayWithin(charge: real, amounts: seq<real>)
    requires |amounts| >= 1 && (forall i: nat | i < |amounts| :: amounts[i] >= 0.0) && Sum(amounts) <= charge
    ensures RefundedCents(amounts) <= StripeCents(charge * 100.0)
    ensures 0 <= StripeCents(Sum(amounts) * 100.0) - RefundedCents(amounts) < |amounts|
  {
    TruncationLosesLessThanACentEach(amounts);
  }

  /** `products[i]` is what floating point makes of `cents[i]` cents on the way to Stripe. */
  ghost predicate Converts(cents: seq<int>, products: seq<real>) {
    && |cents| == |products|
    && forall i: nat | i < |cents| :: 0 <= cents[i] <= TWO_51 && ConvertsOne(cents[i], products[i])
  }

  predicate ConvertsVia(c: int, amount: real, product: real) {
    Rounds(c as real / 100.0, amount) && Rounds(amount * 100.0, product)
  }

  ghost predicate ConvertsOne(c: int, product: real) {
    exists amount: real :: ConvertsVia(c, amount, product)
  }

  function TruncatedCents(products: seq<real>): int {
    if |products| == 0 then 0
    else TruncatedCents(products[..|products| - 1]) + StripeCents(products[|products| - 1])
  }

  lemma {:induction false} ConvertedRefunds(cents: seq<int>, products: seq<real>)
    requires Converts(cents, products)
    ensures SumInts(cents) - |cents| <= TruncatedCents(products) <= SumInts(cents)
  {
    if |cents| > 0 {
      var n := |cents| - 1;
      var amount: real :| ConvertsVia(cents[n], amount, products[n]);
      CentsBound(cents[n], amount, products[n]);
      ConvertedRefunds(cents[..n], products[..n]);
    }
  }

  /** In floating point, whole-cent refunds of a whole-cent charge refund at most one cent more than was charged. */
  lemma FloatRefundsNearlyStayWithin(charge: int, charged: real, cents: seq<int>, products: seq<real>)
    requires 0 <= charge <= TWO_51 && ConvertsOne(charge, charged)
    requires Converts(cents, products) && SumInts(cents) <= charge
    ensures TruncatedCents(products) <= StripeCents(charged) + 1
    ensures StripeCents(charged) == charge ==> TruncatedCents(products) <= StripeCents(charged)
  {
    var amount: real :| ConvertsVia(charge, amount, charged);
    CentsBound(charge, amount, charged);
    ConvertedRefunds(cents, products);
  }

  /** One cent converts exactly. */
  lemma OneCent() returns (amount: Float, product: Float)
    ensures Binary64Converts(1, amount, product) && product.Value() == 1.0
  {
    amount, product := Float(5764607523034235, -59), Float(TWO_52, -52);
    Unscaled(5764607523034235);
    Unscaled(TWO_52);
    Unscaled(1);
    WithinHalf(0.01, amount);
    WithinHalf(amount.Value() * 100.0, product);
  }

  function Ones(n: nat): seq<int> {
    seq(n, i => 1)
  }

  function OnesConverted(n: nat): seq<real> {
    seq(n, i => 1.0)
  }

  lemma {:induction false} OnesAddUp(n: nat)
    ensures SumInts(Ones(n)) == n && TruncatedCents(OnesConverted(n)) == n
  {
    if n > 0 {
      assert Ones(n)[..n - 1] == Ones(n - 1);
      assert OnesConverted(n)[..n - 1] == OnesConverted(n - 1);
      OnesAddUp(n - 1);
    }
  }

  lemma OnesConvert(n: nat)
    ensures Converts(Ones(n), OnesConverted(n))
  {
    var amount, product := OneCent();
    ConversionIsClose(1, amount, product);
    assert ConvertsVia(1, amount.Value(), 1.0);
    assert ConvertsOne(1, 1.0);
  }

  /** No whole-cent refunds within this charge refund more than was charged. */
  ghost predicate NeverOverRefunds(charge: int, charged: real) {
    forall cents: seq<int>, products: seq<real> | Converts(cents, products) && SumInts(cents) <= charge ::
      TruncatedCents(products) <= StripeCents(charged)
  }

  /** Which is so exactly when the charge itself converted exactly: otherwise as many refunds of one cent as the
      charge has cents refund one cent more than was charged. */
  lemma NeverOverRefundsIff(charge: int, charged: real)
    requires 0 <= charge <= TWO_51 && ConvertsOne(charge, charged)
    ensures NeverOverRefunds(charge, charged) <==> StripeCents(charged) == charge
  {
    var amount: real :| ConvertsVia(charge, amount, charged);
    CentsBound(charge, amount, charged);
    OnesAddUp(charge);
    OnesConvert(charge);
    forall cents: seq<int>, products: seq<real> | StripeCents(charged) == charge && Converts(cents, products)
        && SumInts(cents) <= charge
      ensures TruncatedCents(products) <= StripeCents(charged)
    {
      FloatRefundsNearlyStayWithin(charge, charged, cents, products);
    }
    assert Converts(Ones(charge), OnesConverted(charge)) && SumInts(Ones(charge)) <= charge;
  }

  /** In binary64 that is again a matter of the middle just below the charge. */
  lemma NeverOverRefundsAtTheMiddle(charge: int, amount: Float, product: Float) returns (cents: Float)
    requires 0 < charge <= TWO_51 && Binary64Converts(charge, amount, product)
    ensures cents.Normal() && cents.Value() == charge as real
    ensures NeverOverRefunds(charge, product.Value())
       <==> amount.Value() * 100.0 >= (cents.Below().Value() + charge as real) / 2.0
  {
    ConversionIsClose(charge, amount, product);
    assert ConvertsVia(charge, amount.Value(), product.Value());
    NeverOverRefundsIff(charge, product.Value());
    cents := TruncationExactIff(charge, amount, product);
  }

  /** 0.29 is charged as 28 cents, and refunded as 0.10 and 0.19 it returns 29. */
  lemma RefundsCanExceedCharge() returns (charged: Float, products: seq<real>)
    ensures ConvertsOne(29, charged.Value()) && Converts([10, 19], products)
    ensures StripeCents(charged.Value()) == 28 && TruncatedCents(products) == 29
  {
    var amount;
    amount, charged := TwentyNineCents();
    ConversionIsClose(29, amount, charged);
    products := [10.0, 19.0];
    var tenth, nineteenth := 3602879701896397.0 / 36028797018963968.0, 6845471433603154.0 / 36028797018963968.0;
    assert ConvertsVia(10, tenth, 10.0) && ConvertsVia(19, nineteenth, 19.0)
        && ConvertsVia(29, amount.Value(), charged.Value());
    assert ConvertsOne(10, products[0]) && ConvertsOne(19, products[1]);
    assert products[..1] == [10.0];
    assert products[..1][..0] == [];
    assert TruncatedCents([10.0]) == 10;
  }
}
