/** Fixed-point formatting of token amounts: amounts go through their decimal text into an
    arbitrary-precision number, are divided, and are formatted with a number of decimal places. */
module BigNumberFormat {
  import opened Types

  /** Decimal places used when the caller gives no precision. */
  const Precision: nat := 4

  /** Formatted text: the literal "0" or "" the guards return, or the `toFormat` rendering of an exact
      quotient with a number of decimal places (rounding and digit grouping are not modelled). */
  datatype Text = Literal(s: string) | ToFormat(value: real, places: nat)

  function DigitValue(c: char): nat
  {
    if '0' <= c <= '9' then c as nat - '0' as nat else 0
  }

  /** The number a string of decimal digits denotes. */
  function DigitsValue(s: string): nat
  {
    if |s| == 0 then 0 else DigitsValue(s[..|s| - 1]) * 10 + DigitValue(s[|s| - 1])
  }

  lemma {:induction false} DecimalDenotes(n: nat)
    ensures DigitsValue(Decimal(n)) == n
  {
    var s := Decimal(n);
    if n < 10 {
      assert DigitValue(Digit(n)) == n;
      assert s[..0] == [];
    } else {
      assert s[..|s| - 1] == Decimal(n / 10);
      assert DigitValue(Digit(n % 10)) == n % 10;
      DecimalDenotes(n / 10);
    }
  }

  /** `toBigNumber`: the number its decimal text denotes; nothing is lost on the way. */
  function ToBigNumber(n: nat): (r: real)
    ensures r == n as real
  {
    DecimalDenotes(n);
    DigitsValue(Decimal(n)) as real
  }

  /** `toFixed(a, b, precision)`: "0" when either operand is zero, otherwise `a / b` formatted with the
      given precision or the default one. */
  function ToFixed(a: real, b: real, precision: Option<nat>): (t: Text)
    ensures a == 0.0 || b == 0.0 <==> t == Literal("0")
    ensures a != 0.0 && b != 0.0 ==>
              t == ToFormat(a / b, if precision.Some? then precision.value else Precision)
  {
    if a == 0.0 || b == 0.0 then Literal("0")
    else ToFormat(a / b, if precision.Some? then precision.value else Precision)
  }

  /** `10 ** d`. */
  function Pow10(d: nat): (p: nat)
    ensures p > 0
  {
    if d == 0 then 1 else 10 * Pow10(d - 1)
  }

  /** `formatUnits(a, decimals, precision)`: "" when `decimals` is null or zero, otherwise `a` scaled
      down by `10 ** decimals`. */
  function FormatUnits(a: real, decimals: Option<nat>, precision: Option<nat>): (t: Text)
    ensures decimals.None? || decimals == Some(0) ==> t == Literal("")
    ensures decimals.Some? && decimals.value != 0 ==> t == ToFixed(a, Pow10(decimals.value) as real, precision)
  {
    if decimals.None? || decimals.value == 0 then Literal("")
    else ToFixed(a, Pow10(decimals.value) as real, precision)
  }

  lemma DivCancel(x: real, p: real)
    requires p > 0.0
    ensures (x * p) / p == x
  {
  }

  lemma ProductNonzero(x: real, p: real)
    requires p > 0.0 && x != 0.0
    ensures x * p != 0.0
  {
  }

  /** A zero amount shows as "0" for any non-zero decimals. */
  lemma ZeroFormatsAsZero(decimals: nat, precision: Option<nat>)
    requires decimals != 0
    ensures FormatUnits(0.0, Some(decimals), precision) == Literal("0")
  {
  }

  /** An amount of `x` whole tokens, held as `x * 10 ** d` base units, shows as `x`. */
  lemma FormatUnitsScalesDown(units: real, x: real, decimals: nat, precision: Option<nat>)
    requires x != 0.0 && decimals != 0 && units == x * Pow10(decimals) as real
    ensures FormatUnits(units, Some(decimals), precision)
            == ToFormat(x, if precision.Some? then precision.value else Precision)
  {
    var p := Pow10(decimals) as real;
    ProductNonzero(x, p);
    DivCancel(x, p);
  }

  /** An integer amount of base units formats as `a / 10 ** d`, the integer read exactly. */
  lemma FormatUnitsOfInteger(a: nat, decimals: nat, precision: Option<nat>)
    requires a != 0 && decimals != 0
    ensures FormatUnits(ToBigNumber(a), Some(decimals), precision)
            == ToFormat(a as real / Pow10(decimals) as real, if precision.Some? then precision.value else Precision)
  {
  }
}
