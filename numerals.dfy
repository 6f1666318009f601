/**
 * Positional numerals: the decimal rendering JavaScript uses for integer
 * numbers (String(n), template literals) and the minimal lower-case hex form
 * ethers' hexValue gives a chain id ("0x61" for 97). Both are shown to be
 * parseable back to the number they came from.
 */
module Numerals {
  import opened Wrappers

  /** Digits of n in the given base, most significant first, with no leading zero ([0] for 0). */
  function Digits(n: nat, base: nat): (ds: seq<nat>)
    requires 2 <= base
    ensures |ds| >= 1
    ensures forall i :: 0 <= i < |ds| ==> ds[i] < base
    ensures ds[0] == 0 ==> n == 0
    decreases n
  {
    if n < base then [n]
    else
      DivMod(n, base);
      Digits(n / base, base) + [n % base]
  }

  lemma DivMod(n: nat, base: nat)
    requires 2 <= base <= n
    ensures 1 <= n / base < n && n % base < base
    ensures (n / base) * base + n % base == n
  {
  }

  /** The number a digit sequence denotes, most significant digit first. */
  function Value(ds: seq<nat>, base: nat): (v: nat)
  {
    if ds == [] then 0 else Value(ds[..|ds| - 1], base) * base + ds[|ds| - 1]
  }

  lemma {:induction false} ValueOfDigits(n: nat, base: nat)
    requires 2 <= base
    ensures Value(Digits(n, base), base) == n
    decreases n
  {
    if n >= base {
      var ds := Digits(n, base);
      DivMod(n, base);
      ValueOfDigits(n / base, base);
      assert ds[..|ds| - 1] == Digits(n / base, base);
    }
  }

  const HexAlphabet: string := "0123456789abcdef"

  function DigitChar(d: nat): (c: char)
    requires d < 16
  {
    HexAlphabet[d]
  }

  function CharDigit(c: char, base: nat): (r: Option<nat>)
    requires 2 <= base <= 16
    ensures r.Some? ==> r.value < base && DigitChar(r.value) == c
  {
    if '0' <= c <= '9' && (c as int - '0' as int) < base then Some(c as int - '0' as int)
    else if 'a' <= c <= 'f' && 10 + (c as int - 'a' as int) < base then Some(10 + (c as int - 'a' as int))
    else None
  }

  lemma CharDigitOfDigitChar(d: nat, base: nat)
    requires 2 <= base <= 16 && d < base
    ensures CharDigit(DigitChar(d), base) == Some(d)
  {
  }

  function Render(ds: seq<nat>): (s: string)
    requires forall i :: 0 <= i < |ds| ==> ds[i] < 16
    ensures |s| == |ds|
  {
    if ds == [] then "" else Render(ds[..|ds| - 1]) + [DigitChar(ds[|ds| - 1])]
  }

  /** The digits a string of digit characters spells, or None if some character is not a digit. */
  function ParseDigits(s: string, base: nat): (r: Option<seq<nat>>)
    requires 2 <= base <= 16
    ensures r.Some? ==> |r.value| == |s|
  {
    if s == [] then Some([])
    else match (ParseDigits(s[..|s| - 1], base), CharDigit(s[|s| - 1], base))
      case (Some(ds), Some(d)) => Some(ds + [d])
      case _ => None
  }

  lemma {:induction false} ParseRender(ds: seq<nat>, base: nat)
    requires 2 <= base <= 16
    requires forall i :: 0 <= i < |ds| ==> ds[i] < base
    ensures ParseDigits(Render(ds), base) == Some(ds)
  {
    if ds != [] {
      var init := ds[..|ds| - 1];
      ParseRender(init, base);
      CharDigitOfDigitChar(ds[|ds| - 1], base);
      var s := Render(ds);
      assert s[..|s| - 1] == Render(init);
      assert init + [ds[|ds| - 1]] == ds;
    }
  }

  /** The natural number a non-empty string of digits denotes. */
  function ParseNat(s: string, base: nat): (r: Option<nat>)
    requires 2 <= base <= 16
    ensures r.Some? ==> s != []
  {
    if s == [] then None
    else match ParseDigits(s, base)
      case Some(ds) => Some(Value(ds, base))
      case None => None
  }

  function NatToString(n: nat, base: nat): (s: string)
    requires 2 <= base <= 16
  {
    Render(Digits(n, base))
  }

  lemma NatRoundTrip(n: nat, base: nat)
    requires 2 <= base <= 16
    ensures ParseNat(NatToString(n, base), base) == Some(n)
  {
    ParseRender(Digits(n, base), base);
    ValueOfDigits(n, base);
  }

  /**
   * The decimal form of an integer: optional '-' then digits without leading
   * zeros. This is String(n) for an integer-valued JavaScript number of
   * magnitude below 2^53; beyond that JavaScript prints rounded digits, and
   * from 1e21 on an exponent form.
   */
  function IntToDecimal(n: int): (s: string)
    ensures s != [] && (s[0] == '-' <==> n < 0)
  {
    var ds := Digits(if n < 0 then -n else n, 10);
    assert Render(ds)[0] == DigitChar(ds[0]) by { RenderFirst(ds); }
    if n < 0 then "-" + Render(ds) else Render(ds)
  }

  lemma {:induction false} RenderFirst(ds: seq<nat>)
    requires |ds| >= 1 && forall i :: 0 <= i < |ds| ==> ds[i] < 16
    ensures Render(ds)[0] == DigitChar(ds[0])
  {
    if |ds| > 1 {
      RenderFirst(ds[..|ds| - 1]);
    }
  }

  /** Reads back an optional '-' followed by decimal digits. */
  function ParseDecimal(s: string): (r: Option<int>)
  {
    if |s| >= 1 && s[0] == '-' then
      match ParseNat(s[1..], 10)
      case Some(m) => Some(-(m as int))
      case None => None
    else
      match ParseNat(s, 10)
      case Some(m) => Some(m)
      case None => None
  }

  /** The decimal form is the digits of |n|, after a '-' when n is negative. */
  lemma IntToDecimalShape(n: int)
    ensures n < 0 ==> IntToDecimal(n) == "-" + NatToString(-n, 10)
    ensures n >= 0 ==> IntToDecimal(n) == NatToString(n, 10)
  {
  }

  lemma DecimalRoundTrip(n: int)
    ensures ParseDecimal(IntToDecimal(n)) == Some(n)
  {
    if n < 0 {
      var m: nat := -n;
      NegativeRoundTrip(m);
      assert IntToDecimal(n) == IntToDecimal(-(m as int));
    } else {
      var m: nat := n;
      NonNegativeRoundTrip(m);
      assert IntToDecimal(n) == IntToDecimal(m);
    }
  }

  lemma NegativeRoundTrip(m: nat)
    requires m > 0
    ensures ParseDecimal(IntToDecimal(-(m as int))) == Some(-(m as int))
  {
    var digits := NatToString(m, 10);
    IntToDecimalShape(-(m as int));
    NatRoundTrip(m, 10);
    ParseSigned(digits, m);
  }

  lemma NonNegativeRoundTrip(n: nat)
    ensures ParseDecimal(IntToDecimal(n)) == Some(n)
  {
    var digits := NatToString(n, 10);
    IntToDecimalShape(n);
    NatRoundTrip(n, 10);
    ParseUnsigned(digits, n);
  }

  lemma ParseSigned(digits: string, m: nat)
    requires ParseNat(digits, 10) == Some(m)
    ensures ParseDecimal("-" + digits) == Some(-(m as int))
  {
    assert ("-" + digits)[1..] == digits;
  }

  lemma ParseUnsigned(digits: string, m: nat)
    requires ParseNat(digits, 10) == Some(m)
    requires digits != [] && digits[0] != '-'
    ensures ParseDecimal(digits) == Some(m)
  {
  }

  /** ethers' hexValue for a non-negative integer: "0x" then lower-case hex digits without leading zeros. */
  function HexValue(n: nat): (s: string)
    ensures |s| >= 3 && s[..2] == "0x"
  {
    "0x" + NatToString(n, 16)
  }

  function ParseHex(s: string): (r: Option<nat>)
  {
    if |s| >= 2 && s[..2] == "0x" then ParseNat(s[2..], 16) else None
  }

  lemma HexRoundTrip(n: nat)
    ensures ParseHex(HexValue(n)) == Some(n)
  {
    NatRoundTrip(n, 16);
    assert HexValue(n)[2..] == NatToString(n, 16);
  }
}
