/** Conversion between integer minor units and the decimal strings gateways exchange. */
module Money {
  import opened Wrappers
  import opened GoStrings

  const MAX_INT64: int := 0x7FFF_FFFF_FFFF_FFFF
  const MIN_INT64: int := -0x8000_0000_0000_0000

  newtype int64 = x: int | MIN_INT64 <= x <= MAX_INT64

  datatype MoneyError = UnknownCurrency | Empty | Malformed | TooPrecise | OutOfRange

  const WHOLE_CURRENCIES: seq<string> := ["IDR", "JPY", "KRW", "VND"]

  const CENT_CURRENCIES: seq<string> := [
    "USD", "SGD", "MYR", "PHP", "THB", "AUD", "EUR", "GBP", "CNY", "HKD", "NZD", "TWD", "INR", "CHF",
    "CAD", "AED", "SAR"]

  predicate Listed(code: string, codes: seq<string>) {
    codes != [] && (code == codes[0] || Listed(code, codes[1..]))
  }

  function NormalizeCurrency(currency: string): string {
    ToUpper(TrimSpace(currency))
  }

  predicate Supported(currency: string) {
    Listed(NormalizeCurrency(currency), WHOLE_CURRENCIES) || Listed(NormalizeCurrency(currency), CENT_CURRENCIES)
  }

  function Exponent(currency: string): (exp: nat)
    requires Supported(currency)
    ensures exp == 0 || exp == 2
  {
    if Listed(NormalizeCurrency(currency), WHOLE_CURRENCIES) then 0 else 2
  }

  // ---- products and quotients of naturals ----

  function Product(a: nat, b: nat): nat { a * b }

  function Quotient(a: nat, b: nat): nat
    requires b > 0
  {
    a / b
  }

  function Remainder(a: nat, b: nat): nat
    requires b > 0
  {
    a % b
  }

  lemma {:induction false} AtLeastOnce(k: nat, d: nat)
    requires k > 0
    ensures k * d >= d
  {
    if k > 1 {
      AtLeastOnce(k - 1, d);
      assert k * d == (k - 1) * d + d;
    }
  }

  lemma SmallMultipleIsZero(k: int, d: nat, x: int)
    requires k * d == x && -(d as int) < x < d
    ensures k == 0
  {
    if k > 0 {
      AtLeastOnce(k, d);
    }
  }

  lemma DivModUnique(a: nat, d: nat, n: nat, r: nat)
    requires r < d && a == Product(n, d) + r
    ensures Quotient(a, d) == n && Remainder(a, d) == r
  {
    var n', r' := Quotient(a, d), Remainder(a, d);
    DivMod(a, d);
    Spread(n', n, d);
    SmallMultipleIsZero(n' - n, d, r - r');
  }

  lemma Spread(x: nat, y: nat, d: nat)
    ensures (x - y) * d == Product(x, d) - Product(y, d)
  {
  }

  lemma DivMod(a: nat, d: nat)
    requires d > 0
    ensures a == Product(Quotient(a, d), d) + Remainder(a, d) && Remainder(a, d) < d
  {
  }

  lemma Reassociate(a: nat, b: nat, c: nat)
    ensures Product(Product(a, b), c) == Product(a, Product(b, c))
  {
  }

  lemma Distribute(a: nat, b: nat, c: nat)
    ensures Product(a + b, c) == Product(a, c) + Product(b, c)
  {
  }

  lemma ProductRises(r: nat, q: nat, p: nat)
    requires r < q && p > 0
    ensures Product(r, p) < Product(q, p)
    ensures Product(r, p) == 0 <==> r == 0
  {
  }

  // ---- decimal digits ----

  function Power10(n: nat): (r: nat)
    ensures r > 0
  {
    if n == 0 then 1 else 10 * Power10(n - 1)
  }

  predicate IsDigit(c: char) { '0' <= c <= '9' }

  predicate AllDigits(s: string) { forall i :: 0 <= i < |s| ==> IsDigit(s[i]) }

  /** The natural number a run of digits denotes. */
  function Value(s: string): nat
    requires AllDigits(s)
  {
    if s == "" then 0 else Value(s[..|s| - 1]) * 10 + (s[|s| - 1] as int - '0' as int)
  }

  lemma {:induction false} ValueOfConcat(a: string, b: string)
    requires AllDigits(a) && AllDigits(b)
    ensures AllDigits(a + b) && Value(a + b) == Product(Value(a), Power10(|b|)) + Value(b)
  {
    if b == "" {
      assert a + b == a;
    } else {
      var front := b[..|b| - 1];
      ValueOfConcat(a, front);
      assert (a + b)[..|a + b| - 1] == a + front;
      Distribute(Product(Value(a), Power10(|front|)), Value(front), 10);
      Reassociate(Value(a), Power10(|front|), 10);
    }
  }

  function Zeros(n: nat): (s: string)
    ensures |s| == n && AllDigits(s) && forall i :: 0 <= i < n ==> s[i] == '0'
  {
    seq(n, _ => '0')
  }

  lemma {:induction false} ValueOfZeros(s: string)
    requires forall i :: 0 <= i < |s| ==> s[i] == '0'
    ensures AllDigits(s) && Value(s) == 0
  {
    if s != "" {
      ValueOfZeros(s[..|s| - 1]);
    }
  }

  function FormatNat(n: nat): (s: string)
    ensures s != "" && AllDigits(s) && Value(s) == n
  {
    var digit := [(n % 10 + '0' as int) as char];
    if n < 10 then digit else FormatNat(n / 10) + digit
  }

  function FormatInt(n: int): string {
    if n < 0 then "-" + FormatNat(-n) else FormatNat(n)
  }

  /** Zero-padded to a width that counts the sign. */
  function FormatPadded(n: int, width: nat): string {
    var digits := FormatNat(if n < 0 then -n else n);
    var room := width - (if n < 0 then 1 else 0);
    (if n < 0 then "-" else "") + Zeros(if room > |digits| then room - |digits| else 0) + digits
  }

  lemma FormatPaddedIsDigits(n: nat, width: nat)
    requires n < Power10(width) && width == 2
    ensures |FormatPadded(n, width)| == width
    ensures AllDigits(FormatPadded(n, width)) && Value(FormatPadded(n, width)) == n
  {
    assert Power10(2) == 10 * Power10(1) == 100 * Power10(0) == 100;
    var digits := FormatNat(n);
    assert |digits| <= 2 by {
      if n >= 10 {
        assert n / 10 < 10;
        assert |FormatNat(n / 10)| == 1;
      }
    }
    var zeros := Zeros(2 - |digits|);
    ValueOfZeros(zeros);
    ValueOfConcat(zeros, digits);
    assert FormatPadded(n, width) == "" + zeros + digits == zeros + digits;
  }

  // ---- 64-bit arithmetic as Go performs it ----

  /** Two's-complement negation. */
  function Negate(x: int64): int64 {
    if x as int == MIN_INT64 then x else -x
  }

  function TruncatedDiv(x: int64, d: int64): int64
    requires d > 1
  {
    if x >= 0 then x / d else (-((-(x as int)) / (d as int))) as int64
  }

  function TruncatedMod(x: int64, d: int64): int64
    requires d > 1
  {
    if x >= 0 then x % d else (-((-(x as int)) % (d as int))) as int64
  }

  method Pow10(n: nat) returns (out: int64)
    requires n <= 18
    ensures out as int == Power10(n)
  {
    out := 1;
    Power10Fits(n);
    for i := 0 to n
      invariant out as int == Power10(i)
    {
      Power10Rises(i + 1, n);
      out := out * 10;
    }
  }

  lemma {:induction false} Power10Rises(m: nat, n: nat)
    requires m <= n
    ensures Power10(m) <= Power10(n)
    decreases n - m
  {
    if m < n {
      Power10Rises(m + 1, n);
    }
  }

  lemma Power10Fits(n: nat)
    requires n <= 18
    ensures Power10(n) <= MAX_INT64
  {
    Power10Rises(n, 18);
    assert Power10(6) == 1_000_000;
    assert Power10(12) == 1_000_000_000_000;
    assert Power10(18) == 1_000_000_000_000_000_000;
  }

  // ---- Format ----

  function SignedText(negative: bool, body: string): string {
    if negative then "-" + body else body
  }

  function Magnitude(x: int): nat {
    if x < 0 then -x else x
  }

  function CentsText(negative: bool, magnitude: nat): string {
    SignedText(negative, FormatNat(magnitude / 100) + "." + FormatPadded(magnitude % 100, 2))
  }

  /** The smallest amount has no positive counterpart, so its parts come out negative too. */
  function SmallestCentsText(): string {
    "-" + (FormatInt(-92233720368547758) + "." + FormatPadded(-8, 2))
  }

  function FormatText(minor: int64, exp: nat): string {
    if exp == 0 then FormatInt(minor as int)
    else if minor as int == MIN_INT64 then SmallestCentsText()
    else CentsText(minor < 0, Magnitude(minor as int))
  }

  function FormatSpec(minor: int64, currency: string): Result<string, MoneyError> {
    if !Supported(currency) then Err(UnknownCurrency) else Ok(FormatText(minor, Exponent(currency)))
  }

  method FormatMinor(minor: int64, exp: nat) returns (out: string)
    requires exp == 0 || exp == 2
    ensures out == FormatText(minor, exp)
  {
    if exp == 0 {
      return FormatInt(minor as int);
    }
    var amount := minor;
    var negative := amount < 0;
    if negative {
      amount := Negate(amount);
    }
    assert Power10(2) == 100;
    var divisor := Pow10(exp);
    out := FormatInt(TruncatedDiv(amount, divisor) as int) + "."
           + FormatPadded(TruncatedMod(amount, divisor) as int, exp);
    if negative {
      out := "-" + out;
    }
  }

  method Format(minor: int64, currency: string) returns (r: Result<string, MoneyError>)
    ensures r == FormatSpec(minor, currency)
  {
    if !Supported(currency) {
      return Err(UnknownCurrency);
    }
    var out := FormatMinor(minor, Exponent(currency));
    return Ok(out);
  }

  // ---- Parse ----

  /** What a decimal string says: `units` over ten to the power `scale`. */
  datatype Decimal = Decimal(negative: bool, units: nat, scale: nat)

  /** Position of the first point, or the length when there is none. */
  function PointAt(s: string): (i: nat)
    ensures i <= |s| && '.' !in s[..i]
    ensures i < |s| ==> s[i] == '.'
  {
    if s == "" || s[0] == '.' then 0 else assert s[1..][..PointAt(s[1..])] == s[1..PointAt(s[1..]) + 1]; 1 + PointAt(s[1..])
  }

  function Unsigned(s: string): string
    requires s != ""
  {
    if s[0] == '-' || s[0] == '+' then s[1..] else s
  }

  /** Well formed: an optional sign, then digits, then optionally a point and at least one digit.
      The whole part may be missing, so a bare sign reads as zero. */
  predicate WellFormed(s: string) {
    s != "" &&
    var body := Unsigned(s);
    var i := PointAt(body);
    AllDigits(body[..i]) && (i < |body| ==> i + 1 < |body| && AllDigits(body[i + 1..]))
  }

  function Reading(s: string): Decimal
    requires WellFormed(s)
  {
    var body := Unsigned(s);
    var i := PointAt(body);
    if i == |body| then Decimal(s[0] == '-', Value(body[..i]), 0)
    else Decimal(s[0] == '-', Value(body[..i]) * Power10(|body| - i - 1) + Value(body[i + 1..]), |body| - i - 1)
  }

  function Signed(d: Decimal, magnitude: nat): int {
    if d.negative then -(magnitude as int) else magnitude
  }

  /** `minor` units of a currency with `exp` decimal places are exactly `d`. */
  predicate Exactly(minor: int, exp: nat, d: Decimal) {
    minor * Power10(d.scale) == Signed(d, d.units) * Power10(exp)
  }

  /** Some whole number of minor units is exactly `d`. */
  predicate Representable(d: Decimal, exp: nat) {
    Remainder(Product(d.units, Power10(exp)), Power10(d.scale)) == 0
  }

  function Scaled(d: Decimal, exp: nat): nat {
    Quotient(Product(d.units, Power10(exp)), Power10(d.scale))
  }

  function ParseText(value: string, exp: nat): Result<int64, MoneyError> {
    var text := TrimSpace(value);
    if text == "" then Err(Empty)
    else if !WellFormed(text) then Err(Malformed)
    else
      var d := Reading(text);
      if !Representable(d, exp) then Err(TooPrecise)
      else if Scaled(d, exp) > MAX_INT64 then Err(OutOfRange)
      else Ok(Signed(d, Scaled(d, exp)) as int64)
  }

  function ParseSpec(value: string, currency: string): Result<int64, MoneyError> {
    if !Supported(currency) then Err(UnknownCurrency) else ParseText(value, Exponent(currency))
  }

  method IsDigits(s: string) returns (b: bool)
    ensures b == (s != "" && AllDigits(s))
  {
    if s == "" {
      return false;
    }
    for i := 0 to |s|
      invariant AllDigits(s[..i])
    {
      if !IsDigit(s[i]) {
        return false;
      }
      assert s[..i + 1] == s[..i] + [s[i]];
    }
    assert s[..|s|] == s;
    return true;
  }

  /** The digits beyond the currency's precision are all zero. */
  predicate Fits(frac: string, exp: nat) {
    forall i :: exp <= i < |frac| ==> frac[i] == '0'
  }

  lemma DroppingZeros(whole: string, frac: string, exp: nat)
    requires AllDigits(whole) && AllDigits(frac) && |frac| > exp
    ensures Fits(frac, exp) ==> Value(whole + frac) == Value(whole + frac[..exp]) * Power10(|frac| - exp)
    ensures Value(frac[exp..]) < Power10(|frac| - exp)
    ensures Value(whole + frac) == Value(whole + frac[..exp]) * Power10(|frac| - exp) + Value(frac[exp..])
    ensures Fits(frac, exp) <==> Value(frac[exp..]) == 0
  {
    var kept, dropped := frac[..exp], frac[exp..];
    assert whole + frac == (whole + kept) + dropped;
    ValueOfConcat(whole + kept, dropped);
    ValueIsBounded(dropped);
    ZeroMeansZeros(dropped);
    assert forall i :: exp <= i < |frac| ==> frac[i] == dropped[i - exp];
    assert forall i :: 0 <= i < |dropped| ==> dropped[i] == frac[i + exp];
  }

  lemma {:induction false} ValueIsBounded(s: string)
    requires AllDigits(s)
    ensures Value(s) < Power10(|s|)
  {
    if s != "" {
      ValueIsBounded(s[..|s| - 1]);
    }
  }

  lemma {:induction false} ZeroMeansZeros(s: string)
    requires AllDigits(s)
    ensures Value(s) == 0 <==> forall i :: 0 <= i < |s| ==> s[i] == '0'
  {
    if s != "" {
      ZeroMeansZeros(s[..|s| - 1]);
      assert forall i :: 0 <= i < |s| - 1 ==> s[..|s| - 1][i] == s[i];
    }
  }

  // ---- how scaling the reading relates to editing its digits ----

  lemma MulDivCancel(u: nat, q: nat, p: nat)
    requires q > 0 && p > 0
    ensures Product(q, p) > 0 && Quotient(Product(u, p), Product(q, p)) == Quotient(u, q)
    ensures Remainder(Product(u, p), Product(q, p)) == 0 <==> Remainder(u, q) == 0
  {
    var n, r := Quotient(u, q), Remainder(u, q);
    DivMod(u, q);
    Distribute(Product(n, q), r, p);
    Reassociate(n, q, p);
    ProductRises(r, q, p);
    DivModUnique(Product(u, p), Product(q, p), n, Product(r, p));
  }

  lemma {:induction false} Power10Adds(m: nat, n: nat)
    ensures Power10(m + n) == Product(Power10(m), Power10(n))
  {
    if m > 0 {
      Power10Adds(m - 1, n);
      assert 10 * (Power10(m - 1) * Power10(n)) == (10 * Power10(m - 1)) * Power10(n);
    }
  }

  /** Cutting the digits beyond the precision: allowed when they are zero, and then exact. */
  lemma CutScales(d: Decimal, whole: string, frac: string, exp: nat)
    requires AllDigits(whole) && AllDigits(frac) && |frac| > exp
    requires d.scale == |frac| && d.units == Value(whole + frac)
    ensures Representable(d, exp) <==> Fits(frac, exp)
    ensures Fits(frac, exp) ==> Scaled(d, exp) == Value(whole + frac[..exp])
  {
    var over := |frac| - exp;
    DroppingZeros(whole, frac, exp);
    Power10Adds(over, exp);
    MulDivCancel(d.units, Power10(over), Power10(exp));
    DivModUnique(d.units, Power10(over), Value(whole + frac[..exp]), Value(frac[exp..]));
  }

  /** Padding with zeros up to the precision is always exact. */
  lemma PadScales(d: Decimal, whole: string, frac: string, exp: nat)
    requires AllDigits(whole) && AllDigits(frac) && |frac| <= exp
    requires d.scale == |frac| && d.units == Value(whole + frac)
    ensures Representable(d, exp) && Scaled(d, exp) == Value(whole + (frac + Zeros(exp - |frac|)))
  {
    var pad := exp - |frac|;
    ValueOfZeros(Zeros(pad));
    ValueOfConcat(whole + frac, Zeros(pad));
    assert whole + frac + Zeros(pad) == whole + (frac + Zeros(pad));
    Power10Adds(pad, |frac|);
    Reassociate(d.units, Power10(pad), Power10(|frac|));
    DivModUnique(Product(d.units, Power10(exp)), Power10(|frac|), Product(d.units, Power10(pad)), 0);
  }

  /** Brings the fraction to the currency's precision and reads the digits as one number. */
  method Combine(whole: string, fraction: string, exp: nat, ghost d: Decimal)
    returns (r: Result<nat, MoneyError>)
    requires AllDigits(whole) && AllDigits(fraction)
    requires d.scale == |fraction| && d.units == Value(whole + fraction)
    ensures r == if Representable(d, exp) then Ok(Scaled(d, exp)) else Err(TooPrecise)
  {
    var frac := fraction;
    if |frac| > exp {
      CutScales(d, whole, frac, exp);
      if !Fits(frac, exp) {
        return Err(TooPrecise);
      }
      frac := frac[..exp];
    } else {
      PadScales(d, whole, frac, exp);
    }
    ghost var start := frac;
    while |frac| < exp
      invariant |start| <= |frac| <= exp && frac == start + Zeros(|frac| - |start|)
    {
      frac := frac + "0";
    }
    assert |start| == exp ==> start + Zeros(0) == start;
    return Ok(Value(whole + frac));
  }

  /** The magnitude of a trimmed amount: splits at the point and checks both halves. */
  method ParseMagnitude(text: string, exp: nat) returns (r: Result<nat, MoneyError>)
    requires text != ""
    ensures r == if !WellFormed(text) then Err(Malformed)
                 else if Representable(Reading(text), exp) then Ok(Scaled(Reading(text), exp))
                 else Err(TooPrecise)
  {
    var value := Unsigned(text);
    var point := PointAt(value);
    var hasFrac := point < |value|;
    var whole, frac := value[..point], if hasFrac then value[point + 1..] else "";
    if whole == "" {
      whole := "0";
    }
    var wholeOk := IsDigits(whole);
    var fracOk := IsDigits(frac);
    WellFormedParts(text, whole, frac);
    if !wholeOk || (hasFrac && !fracOk) {
      return Err(Malformed);
    }
    r := Combine(whole, frac, exp, Reading(text));
  }

  method ParseAmount(input: string, exp: nat) returns (r: Result<int64, MoneyError>)
    ensures r == ParseText(input, exp)
  {
    var text := TrimSpace(input);
    if text == "" {
      return Err(Empty);
    }
    var magnitude := ParseMagnitude(text, exp);
    if magnitude.Err? {
      return Err(magnitude.error);
    }
    if magnitude.value > MAX_INT64 {
      return Err(OutOfRange);
    }
    return Ok((if text[0] == '-' then -magnitude.value else magnitude.value) as int64);
  }

  method Parse(input: string, currency: string) returns (r: Result<int64, MoneyError>)
    ensures r == ParseSpec(input, currency)
  {
    if !Supported(currency) {
      return Err(UnknownCurrency);
    }
    r := ParseAmount(input, Exponent(currency));
  }

  /** The checks on the two halves decide well-formedness and yield the reading. */
  lemma WellFormedParts(text: string, whole: string, frac: string)
    requires text != ""
    requires var body := Unsigned(text); var i := PointAt(body);
      whole == (if i == 0 then "0" else body[..i]) && frac == if i < |body| then body[i + 1..] else ""
    ensures var body := Unsigned(text); var hasFrac := PointAt(body) < |body|;
      WellFormed(text) <==> AllDigits(whole) && (hasFrac ==> frac != "" && AllDigits(frac))
    ensures WellFormed(text) ==>
      (AllDigits(whole) && AllDigits(frac)
       && Reading(text).scale == |frac| && Reading(text).units == Value(whole + frac))
  {
    var body := Unsigned(text);
    var i := PointAt(body);
    if WellFormed(text) {
      assert AllDigits(frac);
      assert Value("0") == 0;
      assert Value("") == 0;
      ValueOfConcat(whole, frac);
      if i == |body| {
        assert whole + frac == whole;
      }
    }
  }

  // ---- what Parse and Format promise ----

  /** Nothing is rounded: a parsed amount is exactly the decimal that was written. */
  lemma ParseIsExact(value: string, exp: nat)
    requires ParseText(value, exp).Ok?
    ensures WellFormed(TrimSpace(value))
    ensures Exactly(ParseText(value, exp).value as int, exp, Reading(TrimSpace(value)))
  {
    var d := Reading(TrimSpace(value));
    SignedExactly(d, Power10(exp), Power10(d.scale));
  }

  lemma SignedExactly(d: Decimal, q: nat, p: nat)
    requires p > 0 && Remainder(Product(d.units, q), p) == 0
    ensures Signed(d, Quotient(Product(d.units, q), p)) * p == Signed(d, d.units) * q
  {
    DivMod(Product(d.units, q), p);
    NegateProducts(Quotient(Product(d.units, q), p), p, d.units, q);
  }

  lemma NegateProducts(a: nat, b: nat, c: nat, d: nat)
    requires Product(a, b) == Product(c, d)
    ensures -(a as int) * b == -(c as int) * d
  {
  }

  /** And nothing exact is refused: every whole amount in range that the decimal denotes is found. */
  lemma ParseFindsEveryAmount(value: string, exp: nat, minor: int64)
    requires WellFormed(TrimSpace(value)) && minor as int != MIN_INT64
    requires Exactly(minor as int, exp, Reading(TrimSpace(value)))
    ensures ParseText(value, exp) == Ok(minor)
  {
    var d := Reading(TrimSpace(value));
    ExactQuotient(minor as int, Power10(d.scale), d, Power10(exp));
  }

  /** From an exact equation between signed amounts to the quotient of their magnitudes. */
  lemma ExactQuotient(m: int, p: nat, d: Decimal, q: nat)
    requires p > 0 && q > 0 && m * p == Signed(d, d.units) * q
    ensures Remainder(Product(d.units, q), p) == 0
    ensures m == Signed(d, Quotient(Product(d.units, q), p))
  {
    var n := if d.negative then -m else m;
    assert n * p == d.units * q by {
      if d.negative {
        assert n * p == -(m * p);
        assert Signed(d, d.units) * q == -(d.units * q);
      }
    }
    NonNegative(n, p);
    DivModUnique(Product(d.units, q), p, n, 0);
  }

  lemma NonNegative(n: int, p: nat)
    requires p > 0 && n * p >= 0
    ensures n >= 0
  {
    if n < 0 {
      AtLeastOnce(-n, p);
    }
  }

  /** Printable ASCII at both ends leaves nothing to trim. */
  lemma TrimKeeps(s: string)
    requires s != "" && Plain(s[0]) && Plain(s[|s| - 1])
    ensures TrimSpace(s) == s
  {
    assert "" + s + "" == s;
    TrimPadded("", s, "");
  }

  lemma {:induction false} PointAfterDigits(digits: string, rest: string)
    requires AllDigits(digits)
    ensures PointAt(digits) == |digits|
    ensures PointAt(digits + "." + rest) == |digits|
  {
    var s := digits + "." + rest;
    if digits != "" {
      PointAfterDigits(digits[1..], rest);
      assert s[1..] == digits[1..] + "." + rest;
    }
  }

  lemma RoundTripWhole(minor: int64)
    ensures ParseText(FormatInt(minor as int), 0) == Ok(minor) <==> minor as int != MIN_INT64
  {
    WholeReads(minor as int);
    assert Power10(0) == 1;
    if minor as int != MIN_INT64 {
      ParseInMinorUnits(FormatInt(minor as int), 0, minor);
    } else {
      DivModUnique(-(minor as int), 1, -(minor as int), 0);
    }
  }

  lemma WholeReads(n: int)
    ensures var s := FormatInt(n);
      TrimSpace(s) == s && WellFormed(s) && Reading(s) == Decimal(n < 0, Magnitude(n), 0)
  {
    DigitsTrim(n < 0, FormatNat(Magnitude(n)));
    DigitsRead(n < 0, FormatNat(Magnitude(n)));
  }

  lemma DigitsTrim(negative: bool, digits: string)
    requires AllDigits(digits) && digits != ""
    ensures var s := SignedText(negative, digits); TrimSpace(s) == s
  {
    var s := SignedText(negative, digits);
    assert s[|s| - 1] == digits[|digits| - 1] && IsDigit(digits[|digits| - 1]);
    assert s[0] == '-' || s[0] == digits[0];
    TrimKeeps(s);
  }

  lemma DigitsRead(negative: bool, digits: string)
    requires AllDigits(digits) && digits != ""
    ensures var s := SignedText(negative, digits);
      WellFormed(s) && Reading(s) == Decimal(negative, Value(digits), 0)
  {
    var s := SignedText(negative, digits);
    PointAfterDigits(digits, "");
    assert IsDigit(digits[0]);
    assert s[0] == '-' <==> negative;
    assert Unsigned(s) == digits;
    assert digits[..|digits|] == digits;
  }

  lemma RoundTripCents(minor: int64)
    requires minor as int != MIN_INT64
    ensures ParseText(CentsText(minor < 0, Magnitude(minor as int)), 2) == Ok(minor)
  {
    TextOfCents(minor < 0, Magnitude(minor as int));
    ParseInMinorUnits(CentsText(minor < 0, Magnitude(minor as int)), 2, minor);
  }

  /** A text with exactly the currency's decimal places reads as its units. */
  lemma ParseInMinorUnits(s: string, exp: nat, minor: int64)
    requires minor as int != MIN_INT64 && TrimSpace(s) == s && WellFormed(s)
    requires Reading(s) == Decimal(minor < 0, Magnitude(minor as int), exp)
    ensures ParseText(s, exp) == Ok(minor)
  {
    assert Signed(Reading(s), Reading(s).units) == minor as int;
    ParseFindsEveryAmount(s, exp, minor);
  }

  lemma TextOfCents(negative: bool, magnitude: nat)
    ensures var s := CentsText(negative, magnitude);
      TrimSpace(s) == s && WellFormed(s) && Reading(s) == Decimal(negative, magnitude, 2)
  {
    var hundreds, rest := magnitude / 100, magnitude % 100;
    CentsAreDigits(rest);
    HundredsAndRest(magnitude);
    CentsParts(negative, magnitude, hundreds, rest);
    hide *;
    CentsTrim(negative, FormatNat(hundreds), FormatPadded(rest, 2));
    CentsRead(negative, FormatNat(hundreds), FormatPadded(rest, 2));
  }

  lemma CentsParts(negative: bool, magnitude: nat, hundreds: nat, rest: nat)
    requires hundreds == magnitude / 100 && rest == magnitude % 100
    ensures CentsText(negative, magnitude) == SignedText(negative, FormatNat(hundreds) + "." + FormatPadded(rest, 2))
  {
    hide FormatNat, FormatPadded, SignedText;
  }

  lemma HundredsAndRest(magnitude: nat)
    ensures magnitude / 100 * 100 + magnitude % 100 == magnitude
  {
  }

  lemma CentsAreDigits(n: nat)
    requires n < 100
    ensures var cents := FormatPadded(n, 2); AllDigits(cents) && |cents| == 2 && Value(cents) == n
  {
    assert Power10(2) == 10 * Power10(1) == 100 * Power10(0) == 100;
    FormatPaddedIsDigits(n, 2);
  }

  lemma CentsTrim(negative: bool, whole: string, cents: string)
    requires AllDigits(whole) && AllDigits(cents) && whole != "" && |cents| == 2
    ensures var s := SignedText(negative, whole + "." + cents); TrimSpace(s) == s
  {
    var s := SignedText(negative, whole + "." + cents);
    assert s[|s| - 1] == cents[1] && IsDigit(cents[1]);
    assert s[0] == '-' || s[0] == whole[0];
    TrimKeeps(s);
  }

  lemma CentsRead(negative: bool, whole: string, cents: string)
    requires AllDigits(whole) && AllDigits(cents) && whole != "" && |cents| == 2
    ensures var s := SignedText(negative, whole + "." + cents);
      WellFormed(s) && Reading(s) == Decimal(negative, Value(whole) * 100 + Value(cents), 2)
  {
    var body := whole + "." + cents;
    PointAfterDigits(whole, cents);
    UnsignedCents(negative, whole, cents);
    assert body[..|whole|] == whole;
    assert body[|whole| + 1..] == cents;
    assert Power10(2) == 10 * Power10(1) == 100 * Power10(0) == 100;
  }

  lemma UnsignedCents(negative: bool, whole: string, cents: string)
    requires AllDigits(whole) && whole != ""
    ensures var s := SignedText(negative, whole + "." + cents);
      s != "" && Unsigned(s) == whole + "." + cents && (s[0] == '-' <==> negative)
  {
    var s := SignedText(negative, whole + "." + cents);
    if negative {
      assert s[1..] == whole + "." + cents;
    } else {
      assert s[0] == whole[0] && IsDigit(whole[0]);
    }
  }

  lemma SmallestCentsAreMalformed()
    ensures ParseText(SmallestCentsText(), 2) == Err(Malformed)
  {
    SecondSignIsMalformed(FormatInt(-92233720368547758), FormatPadded(-8, 2), 2);
  }

  lemma SecondSignIsMalformed(whole: string, cents: string, exp: nat)
    requires whole != "" && whole[0] == '-'
    requires cents != "" && IsDigit(cents[|cents| - 1])
    ensures ParseText("-" + (whole + "." + cents), exp) == Err(Malformed)
  {
    var s := "-" + (whole + "." + cents);
    assert s[0] == '-' && s[1] == whole[0] && s[|s| - 1] == cents[|cents| - 1];
    TrimKeeps(s);
    TwoSigns(s);
  }

  lemma TwoSigns(s: string)
    requires |s| > 1 && s[0] == '-' && s[1] == '-'
    ensures !WellFormed(s)
  {
    var body := Unsigned(s);
    assert body[0] == '-';
    assert PointAt(body) > 0 && body[..PointAt(body)][0] == '-';
  }

  /** Formatting and parsing back returns the amount, whatever spaces are put around its text, for every
      supported currency and every amount but the one whose magnitude has no 64-bit representation. */
  lemma RoundTrip(minor: int64, currency: string, before: string, after: string)
    requires Supported(currency) && Spaces(before) && Spaces(after)
    ensures FormatSpec(minor, currency).Ok?
    ensures ParseSpec(before + FormatSpec(minor, currency).value + after, currency) == Ok(minor) <==> minor as int != MIN_INT64
  {
    RoundTripText(minor, Exponent(currency), before, after);
  }

  lemma RoundTripText(minor: int64, exp: nat, before: string, after: string)
    requires (exp == 0 || exp == 2) && Spaces(before) && Spaces(after)
    ensures ParseText(before + FormatText(minor, exp) + after, exp) == Ok(minor) <==> minor as int != MIN_INT64
  {
    var text := FormatText(minor, exp);
    TextIsPlain(minor, exp);
    TrimPadded(before, text, after);
    TrimKeeps(text);
    SameTrimmed(before + text + after, text, exp);
    hide ParseText, Spaces, TrimSpace, FormatInt, CentsText, SmallestCentsText;
    if exp == 0 {
      RoundTripWhole(minor);
    } else if minor as int == MIN_INT64 {
      SmallestCentsAreMalformed();
    } else {
      RoundTripCents(minor);
    }
  }

  lemma SameTrimmed(value: string, text: string, exp: nat)
    requires TrimSpace(value) == TrimSpace(text)
    ensures ParseText(value, exp) == ParseText(text, exp)
  {
    hide TrimSpace, WellFormed, Reading, Representable, Scaled, Signed;
  }

  lemma TextIsPlain(minor: int64, exp: nat)
    requires exp == 0 || exp == 2
    ensures var s := FormatText(minor, exp); s != "" && Plain(s[0]) && Plain(s[|s| - 1])
  {
    hide Value;
    var s := FormatText(minor, exp);
    if exp != 0 {
      var cents := if minor as int == MIN_INT64 then -8 else Magnitude(minor as int) % 100;
      PaddedIsPlain(cents, 2);
      hide FormatPadded, FormatNat;
      assert s[|s| - 1] == FormatPadded(cents, 2)[|FormatPadded(cents, 2)| - 1];
    }
  }

  lemma PaddedIsPlain(n: int, width: nat)
    ensures var s := FormatPadded(n, width); s != "" && Plain(s[|s| - 1])
  {
    hide Value;
    var digits := FormatNat(if n < 0 then -n else n);
    assert FormatPadded(n, width)[|FormatPadded(n, width)| - 1] == digits[|digits| - 1];
  }

  // ---- by currency ----

  lemma ListedSkips(code: string, codes: seq<string>, k: nat)
    requires k < |codes|
    ensures Listed(code, codes[k..]) <==> code == codes[k] || Listed(code, codes[k + 1..])
  {
    assert codes[k..][1..] == codes[k + 1..];
  }

  predicate WholeCode(c: string) { c == "IDR" || c == "JPY" || c == "KRW" || c == "VND" }

  predicate CentCode(c: string) {
    c == "USD" || c == "SGD" || c == "MYR" || c == "PHP" || c == "THB" || c == "AUD" || c == "EUR" || c == "GBP" || c == "CNY"
    || c == "HKD" || c == "NZD" || c == "TWD" || c == "INR" || c == "CHF" || c == "CAD" || c == "AED" || c == "SAR"
  }

  lemma {:induction false} ListedFrom(code: string, codes: seq<string>, k: nat)
    requires k <= |codes|
    ensures Listed(code, codes[k..]) <==> exists j :: k <= j < |codes| && code == codes[j]
    decreases |codes| - k
  {
    if k < |codes| {
      ListedSkips(code, codes, k);
      ListedFrom(code, codes, k + 1);
    }
  }

  /** Which currencies are known, and how many decimals each has, ignoring case and surrounding spaces. */
  lemma Currencies(currency: string)
    ensures var c := NormalizeCurrency(currency);
      && (Supported(currency) <==> WholeCode(c) || CentCode(c))
      && (Supported(currency) ==> Exponent(currency) == (if WholeCode(c) then 0 else 2))
      && !(WholeCode(c) && CentCode(c))
  {
    var c := NormalizeCurrency(currency);
    ListedFrom(c, WHOLE_CURRENCIES, 0);
    ListedFrom(c, CENT_CURRENCIES, 0);
    assert WHOLE_CURRENCIES[0..] == WHOLE_CURRENCIES && CENT_CURRENCIES[0..] == CENT_CURRENCIES;
    hide NormalizeCurrency, Listed;
    WholeCodes(c);
    CentCodes(c);
  }

  lemma WholeCodes(c: string)
    ensures WholeCode(c) <==> exists j :: 0 <= j < |WHOLE_CURRENCIES| && c == WHOLE_CURRENCIES[j]
  {
    assert WHOLE_CURRENCIES[0] == "IDR" && WHOLE_CURRENCIES[1] == "JPY" && WHOLE_CURRENCIES[2] == "KRW" && WHOLE_CURRENCIES[3] == "VND";
  }

  lemma CentCodes(c: string)
    ensures CentCode(c) <==> exists j :: 0 <= j < |CENT_CURRENCIES| && c == CENT_CURRENCIES[j]
  {
    var all := CENT_CURRENCIES;
    assert all[0] == "USD" && all[1] == "SGD" && all[2] == "MYR" && all[3] == "PHP" && all[4] == "THB" && all[5] == "AUD";
    assert all[6] == "EUR" && all[7] == "GBP" && all[8] == "CNY" && all[9] == "HKD" && all[10] == "NZD" && all[11] == "TWD";
    assert all[12] == "INR" && all[13] == "CHF" && all[14] == "CAD" && all[15] == "AED" && all[16] == "SAR";
  }

  /** A code is known by its letters, in either case and within any spaces. */
  lemma CodesIgnoreCase(before: string, code: string, after: string)
    requires Spaces(before) && Spaces(after) && code != "" && Plain(code[0]) && Plain(code[|code| - 1])
    ensures var c := NormalizeCurrency(before + code + after);
      |c| == |code| && forall i :: 0 <= i < |code| ==>
        c[i] == if 'a' <= code[i] <= 'z' then (code[i] as int - 'a' as int + 'A' as int) as char else code[i]
  {
    TrimPadded(before, code, after);
    UppersEach(code);
    hide *;
    UppersTrimmed(before + code + after);
  }

  lemma UppersTrimmed(s: string)
    ensures NormalizeCurrency(s) == ToUpper(TrimSpace(s))
  {
    hide ToUpper, TrimSpace;
  }

  lemma UppersEach(code: string)
    ensures var c := ToUpper(code);
      |c| == |code| && forall i :: 0 <= i < |code| ==>
        c[i] == if 'a' <= code[i] <= 'z' then (code[i] as int - 'a' as int + 'A' as int) as char else code[i]
  {
  }

  /** The part before the point has no superfluous zero. */
  predicate Tight(s: string) {
    s != "" && var body := Unsigned(s); var i := PointAt(body); i == 1 || (i > 1 && body[0] != '0')
  }

  lemma {:induction false} NoLeadingZero(n: nat)
    ensures var s := FormatNat(n); |s| == 1 || s[0] != '0'
  {
    hide Value;
    if n >= 10 {
      NoLeadingZero(n / 10);
      assert FormatNat(n)[0] == FormatNat(n / 10)[0];
      if n / 10 < 10 {
        assert FormatNat(n / 10)[0] == (n / 10 + '0' as int) as char;
      }
    }
  }

  /** The text of an amount is the amount itself in the four currencies without decimals and a hundredth of
      it, to two places, in the others; a currency that is not known has no text. */
  lemma AmountIsWritten(minor: int64, currency: string)
    ensures var c, r := NormalizeCurrency(currency), FormatSpec(minor, currency);
      && (r.Err? <==> !WholeCode(c) && !CentCode(c)) && (r.Err? ==> r.error == UnknownCurrency)
      && (WholeCode(c) ==>
            WellFormed(r.value) && Tight(r.value)
            && Reading(r.value) == Decimal(minor < 0, if minor < 0 then -(minor as int) else minor as int, 0))
      && (CentCode(c) && minor as int != MIN_INT64 ==>
            WellFormed(r.value) && Tight(r.value)
            && Reading(r.value) == Decimal(minor < 0, if minor < 0 then -(minor as int) else minor as int, 2))
  {
    Currencies(currency);
    WholeReads(minor as int);
    WholeIsTight(minor as int);
    if minor as int != MIN_INT64 {
      TextOfCents(minor < 0, Magnitude(minor as int));
      CentsAreTight(minor < 0, Magnitude(minor as int));
    }
    hide NormalizeCurrency, WellFormed, Reading, Tight, CentsText, FormatInt, SmallestCentsText, WholeCode, CentCode;
  }

  lemma WholeIsTight(n: int)
    ensures Tight(FormatInt(n))
  {
    var digits := FormatNat(Magnitude(n));
    NoLeadingZero(Magnitude(n));
    PointAfterDigits(digits, "");
    UnsignedDigits(n < 0, digits);
    hide FormatNat, PointAt, Value;
  }

  lemma UnsignedDigits(negative: bool, digits: string)
    requires digits != "" && IsDigit(digits[0])
    ensures SignedText(negative, digits) != "" && Unsigned(SignedText(negative, digits)) == digits
  {
    if negative {
      assert ("-" + digits)[1..] == digits;
    }
  }

  lemma CentsAreTight(negative: bool, magnitude: nat)
    ensures Tight(CentsText(negative, magnitude))
  {
    var whole, cents := FormatNat(magnitude / 100), FormatPadded(magnitude % 100, 2);
    NoLeadingZero(magnitude / 100);
    PointAfterDigits(whole, cents);
    assert (whole + "." + cents)[0] == whole[0];
    UnsignedDigits(negative, whole + "." + cents);
    hide FormatNat, PointAt, Value, FormatPadded, SignedText;
  }

  /** A text is read as exactly the amount it denotes: itself in the four currencies without decimals, a
      hundred times itself in the others. */
  lemma AmountIsRead(value: string, currency: string)
    ensures var c, r, text := NormalizeCurrency(currency), ParseSpec(value, currency), TrimSpace(value);
      && (r == Err(UnknownCurrency) <==> !WholeCode(c) && !CentCode(c))
      && (r.Ok? ==>
            WellFormed(text)
            && r.value as int * Power10(Reading(text).scale)
               == Signed(Reading(text), Reading(text).units) * (if WholeCode(c) then 1 else 100))
  {
    Currencies(currency);
    assert Power10(0) == 1 && Power10(2) == 10 * Power10(1) == 100 * Power10(0) == 100;
    if ParseSpec(value, currency).Ok? {
      ParseIsExact(value, Exponent(currency));
    }
    hide NormalizeCurrency, TrimSpace, WellFormed, Reading, WholeCode, CentCode, Representable, Scaled, Power10;
  }

  /** Why a text is refused: it is empty, it is no decimal, it denotes no whole number of minor units, or
      one of more than 63 bits. */
  lemma RefusedExactly(value: string, exp: nat)
    ensures var r, text := ParseText(value, exp), TrimSpace(value);
      && (r == Err(Empty) <==> text == "")
      && (r == Err(Malformed) <==> text != "" && !WellFormed(text))
      && (r == Err(TooPrecise) <==> WellFormed(text) && forall m: int :: !Exactly(m, exp, Reading(text)))
      && (r == Err(OutOfRange) <==> WellFormed(text) && exists m: int :: Exactly(m, exp, Reading(text)) && (m > MAX_INT64 || -m > MAX_INT64))
  {
    var text := TrimSpace(value);
    if WellFormed(text) {
      var d := Reading(text);
      hide WellFormed, Reading, TrimSpace;
      ExactlyOne(d, exp);
    }
    hide WellFormed, Reading, TrimSpace, Exactly, Representable, Scaled;
  }

  /** There is at most one such number, and it is there exactly when the division has no remainder. */
  lemma ExactlyOne(d: Decimal, exp: nat)
    ensures forall m: int :: Exactly(m, exp, d) ==> Representable(d, exp) && m == Signed(d, Scaled(d, exp))
    ensures Representable(d, exp) ==> Exactly(Signed(d, Scaled(d, exp)), exp, d)
  {
    forall m: int | Exactly(m, exp, d) ensures Representable(d, exp) && m == Signed(d, Scaled(d, exp)) {
      ExactQuotient(m, Power10(d.scale), d, Power10(exp));
    }
    if Representable(d, exp) {
      SignedExactly(d, Power10(exp), Power10(d.scale));
    }
  }
}
