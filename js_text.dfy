/**
 * The few JavaScript string primitives the UI relies on: `String.prototype.trim`,
 * `startsWith`, `Number.prototype.toString` on integers and the global `parseInt`
 * called without a radix. A number produced by `parseInt` is an `Option<int>`:
 * `None` stands for NaN.
 */
module JsText {
  import opened Wrappers

  /** The result of `parseInt`: `None` is NaN. */
  type ParsedInt = Option<int>

  /** ECMAScript WhiteSpace and LineTerminator code points (what `trim` and `parseInt` skip). */
  predicate IsWhitespace(c: char) {
    var k := c as int;
    k == 0x09 || k == 0x0A || k == 0x0B || k == 0x0C || k == 0x0D || k == 0x20 || k == 0xA0
    || k == 0x1680 || (0x2000 <= k <= 0x200A) || k == 0x2028 || k == 0x2029 || k == 0x202F
    || k == 0x205F || k == 0x3000 || k == 0xFEFF
  }

  predicate AllWhitespace(s: string) {
    forall i :: 0 <= i < |s| ==> IsWhitespace(s[i])
  }

  predicate StartsWith(s: string, prefix: string) {
    |prefix| <= |s| && s[..|prefix|] == prefix
  }

  /** `s.trimStart()`: the suffix left after dropping leading whitespace. */
  function TrimStart(s: string): (r: string)
    ensures |r| <= |s| && r == s[|s| - |r|..]
    ensures AllWhitespace(s[..|s| - |r|])
    ensures r == [] || !IsWhitespace(r[0])
  {
    if s != [] && IsWhitespace(s[0]) then TrimStart(s[1..]) else s
  }

  /** `s.trimEnd()`: the prefix left after dropping trailing whitespace. */
  function TrimEnd(s: string): (r: string)
    ensures |r| <= |s| && r == s[..|r|]
    ensures AllWhitespace(s[|r|..])
    ensures r == [] || !IsWhitespace(r[|r| - 1])
  {
    if s != [] && IsWhitespace(s[|s| - 1]) then TrimEnd(s[..|s| - 1]) else s
  }

  /** `s.trim()`. */
  function Trim(s: string): string {
    TrimEnd(TrimStart(s))
  }

  /** `!s.trim()` holds exactly when every character of `s` is whitespace. */
  lemma TrimEmptyIffBlank(s: string)
    ensures Trim(s) == [] <==> AllWhitespace(s)
  {
    var t := TrimStart(s);
    if Trim(s) == [] {
      assert t[0..] == t;
      assert t == [];
      assert s[..|s|] == s;
    } else {
      var r := Trim(s);
      assert r == t[..|r|];
      assert !IsWhitespace(r[0]);
      assert r[0] == s[|s| - |t|];
    }
  }

  // ---------------------------------------------------------------------------
  // Digits

  function Radix(hex: bool): nat {
    if hex then 16 else 10
  }

  /** The value of `c` as a digit of the radix (10, or 16 when `hex`), if it is one. */
  function DigitValue(c: char, hex: bool): (d: Option<nat>)
    ensures d.Some? ==> d.value < Radix(hex)
    ensures '0' <= c <= '9' ==> d == Some(c as int - '0' as int)
  {
    if '0' <= c <= '9' then Some(c as int - '0' as int)
    else if hex && 'a' <= c <= 'f' then Some(c as int - 'a' as int + 10)
    else if hex && 'A' <= c <= 'F' then Some(c as int - 'A' as int + 10)
    else None
  }

  predicate AllDigits(s: string, hex: bool) {
    forall i :: 0 <= i < |s| ==> DigitValue(s[i], hex).Some?
  }

  /** Length of the longest prefix of `s` made of digits. */
  function DigitRun(s: string, hex: bool): (n: nat)
    ensures n <= |s|
    ensures AllDigits(s[..n], hex)
    ensures n < |s| ==> DigitValue(s[n], hex).None?
  {
    if s != [] && DigitValue(s[0], hex).Some? then
      var n := 1 + DigitRun(s[1..], hex);
      assert forall i :: 1 <= i < n ==> s[..n][i] == s[1..][..n - 1][i - 1];
      n
    else 0
  }

  /** The number written by the digit string `ds`, most significant digit first. */
  function DigitsValue(ds: string, hex: bool): nat
    requires AllDigits(ds, hex)
  {
    if ds == [] then 0
    else DigitsValue(ds[..|ds| - 1], hex) * Radix(hex) + DigitValue(ds[|ds| - 1], hex).value
  }

  /** Drops one leading `+` or `-`. */
  function StripSign(t: string): (u: string)
    ensures |u| <= |t| && u == t[|t| - |u|..]
  {
    if t != [] && (t[0] == '-' || t[0] == '+') then t[1..] else t
  }

  predicate HasHexPrefix(u: string) {
    |u| >= 2 && u[0] == '0' && (u[1] == 'x' || u[1] == 'X')
  }

  /** The value of the longest digit prefix of `digits`, or NaN when there is none. */
  function LeadingNumber(digits: string, hex: bool): (r: Option<nat>)
    ensures r.None? <==> digits == [] || DigitValue(digits[0], hex).None?
  {
    var n := DigitRun(digits, hex);
    if n == 0 then None else Some(DigitsValue(digits[..n], hex))
  }

  /** `parseInt` on a string whose leading whitespace is already gone. */
  function ParseTrimmed(t: string): ParsedInt {
    var u := StripSign(t);
    var hex := HasHexPrefix(u);
    match LeadingNumber(if hex then u[2..] else u, hex)
    case None => None
    case Some(m) => Some(if t != [] && t[0] == '-' then -(m as int) else m)
  }

  /**
   * `parseInt(s)` without a radix: skip leading whitespace, take an optional sign, switch
   * to radix 16 after a `0x`/`0X` prefix, then read the longest digit prefix; no digits
   * gives NaN.
   */
  function ParseInt(s: string): (r: ParsedInt)
    ensures AllWhitespace(s) ==> r.None?
    ensures r.Some? ==>
      var t := TrimStart(s);
      t != [] && (t[0] == '+' || t[0] == '-' || '0' <= t[0] <= '9')
  {
    ParseTrimmed(TrimStart(s))
  }

  // ---------------------------------------------------------------------------
  // Number to string

  function DigitChar(d: nat): (c: char)
    requires d < 10
    ensures '0' <= c <= '9' && c as int - '0' as int == d
  {
    ('0' as int + d) as char
  }

  /** Decimal notation of a natural number, as `Number.prototype.toString` writes it. */
  function NatToString(n: nat): (s: string)
    ensures |s| >= 1
    ensures forall i :: 0 <= i < |s| ==> '0' <= s[i] <= '9'
    ensures s[0] == '0' ==> n == 0
  {
    if n < 10 then [DigitChar(n)] else NatToString(n / 10) + [DigitChar(n % 10)]
  }

  /** Decimal notation of an integer: a minus sign exactly for negatives, then digits. */
  function IntToString(n: int): (s: string)
    ensures |s| >= 1
    ensures s[0] == '-' <==> n < 0
    ensures forall i :: 0 < i < |s| ==> '0' <= s[i] <= '9'
    ensures s[0] == '0' ==> n == 0
    ensures n < 0 ==> |s| >= 2 && s[1] != '0'
  {
    if n < 0 then "-" + NatToString(-n) else NatToString(n)
  }

  /** `String(v)` for a parsed number: NaN prints as `"NaN"`, and no number does. */
  function NumberToString(v: ParsedInt): (s: string)
    ensures s == "NaN" <==> v.None?
  {
    match v
    case None => "NaN"
    case Some(n) => IntToString(n)
  }

  lemma {:induction false} DigitsValueOfNatToString(n: nat)
    ensures AllDigits(NatToString(n), false)
    ensures DigitsValue(NatToString(n), false) == n
  {
    var s := NatToString(n);
    if n >= 10 {
      DigitsValueOfNatToString(n / 10);
      assert s[..|s| - 1] == NatToString(n / 10);
    }
  }

  /** A string without leading whitespace is its own `trimStart`. */
  lemma TrimStartOfNonBlankStart(s: string)
    requires s != [] && !IsWhitespace(s[0])
    ensures TrimStart(s) == s
  {
  }

  /** The digits of `NatToString(n)` are read back in full. */
  lemma ReadNatToString(n: nat)
    ensures var s := NatToString(n);
      DigitRun(s, false) == |s| && AllDigits(s, false) && DigitsValue(s, false) == n
  {
    var s := NatToString(n);
    DigitsValueOfNatToString(n);
    assert s[..|s|] == s;
  }

  /** The decimal digits of `m` are read back as `m`, whole. */
  lemma ParseNatToString(m: nat)
    ensures PlainDigits(NatToString(m), m)
  {
    var digits := NatToString(m);
    assert |digits| >= 2 ==> '0' <= digits[1] <= '9';
    ReadNatToString(m);
    assert digits[..|digits|] == digits;
  }

  /** Without leading whitespace, `parseInt` goes straight to the sign and digits. */
  lemma ParseIntOfNonBlankStart(t: string)
    requires t != [] && !IsWhitespace(t[0])
    ensures ParseInt(t) == ParseTrimmed(t)
  {
    TrimStartOfNonBlankStart(t);
  }

  /** A non-empty digit string without a hex prefix whose leading number is `m`. */
  predicate PlainDigits(digits: string, m: nat) {
    digits != [] && '0' <= digits[0] <= '9'
    && !HasHexPrefix(digits) && LeadingNumber(digits, false) == Some(m)
  }

  /** `parseInt` reads a plain digit string as its leading number. */
  lemma ParseIntOfPlainDigits(digits: string, m: nat)
    requires PlainDigits(digits, m)
    ensures ParseInt(digits) == Some(m)
  {
    ParseTrimmedOfPlainDigits(digits, m);
    ParseIntOfNonBlankStart(digits);
  }

  lemma ParseTrimmedOfPlainDigits(digits: string, m: nat)
    requires PlainDigits(digits, m)
    ensures ParseTrimmed(digits) == Some(m)
  {
    assert StripSign(digits) == digits;
  }

  /** `parseInt` reads a minus sign and a plain digit string as the negated leading number. */
  lemma ParseIntOfMinusPlainDigits(digits: string, m: nat)
    requires PlainDigits(digits, m)
    ensures ParseInt("-" + digits) == Some(-(m as int))
  {
    var t := "-" + digits;
    assert t[0] == '-' && t[1..] == digits;
    assert StripSign(t) == digits;
    ParseIntOfNonBlankStart(t);
  }

  /** `parseInt` reads back the decimal digits of a natural number. */
  lemma ParseIntOfNat(m: nat)
    ensures ParseInt(NatToString(m)) == Some(m)
  {
    ParseNatToString(m);
    ParseIntOfPlainDigits(NatToString(m), m);
  }

  /** `parseInt` reads back a minus sign followed by the decimal digits of `m`. */
  lemma ParseIntOfNegated(m: nat)
    ensures ParseInt("-" + NatToString(m)) == Some(-(m as int))
  {
    ParseNatToString(m);
    ParseIntOfMinusPlainDigits(NatToString(m), m);
  }

  /** Round trip: `parseInt(String(n)) == n` for every integer. */
  lemma ParseIntOfIntToString(n: int)
    ensures ParseInt(IntToString(n)) == Some(n)
  {
    if n < 0 {
      var m: nat := -n;
      var t := "-" + NatToString(m);
      assert IntToString(n) == t;
      ParseIntOfNegated(m);
    } else {
      ParseIntOfNat(n);
    }
  }

  /** Round trip through `String(...)` for every parsed number, NaN included. */
  lemma ParseIntOfNumberToString(v: ParsedInt)
    ensures ParseInt(NumberToString(v)) == v
  {
    match v
    case None =>
      var t := "NaN";
      TrimStartOfNonBlankStart(t);
      assert DigitValue(t[0], false).None?;
    case Some(n) =>
      ParseIntOfIntToString(n);
  }

  /** `parseInt('')` is NaN. */
  lemma ParseIntOfEmpty()
    ensures ParseInt("") == None
  {
  }

  /** `parseInt` ignores leading whitespace. */
  lemma {:induction false} ParseIntSkipsLeadingWhitespace(w: string, s: string)
    requires AllWhitespace(w)
    ensures ParseInt(w + s) == ParseInt(s)
  {
    TrimStartSkips(w, s);
    assert TrimStart(w + s) == TrimStart(s);
  }

  lemma {:induction false} TrimStartSkips(w: string, s: string)
    requires AllWhitespace(w)
    ensures TrimStart(w + s) == TrimStart(s)
  {
    if w != [] {
      assert (w + s)[1..] == w[1..] + s;
      TrimStartSkips(w[1..], s);
    } else {
      assert w + s == s;
    }
  }

  /** A run of digits ends where the first non-digit begins. */
  lemma {:induction false} DigitRunStops(ds: string, rest: string, hex: bool)
    requires AllDigits(ds, hex) && (rest == [] || DigitValue(rest[0], hex).None?)
    ensures DigitRun(ds + rest, hex) == |ds|
  {
    if ds == [] {
      assert ds + rest == rest;
    } else {
      assert (ds + rest)[1..] == ds[1..] + rest;
      DigitRunStops(ds[1..], rest, hex);
    }
  }

  /**
   * `parseInt` reads a leading decimal number and ignores whatever follows it: for digits
   * `ds` followed by text `rest` that does not continue them (and no `0x` prefix), the
   * result is the number `ds` writes.
   */
  lemma ParseIntReadsDecimalPrefix(ds: string, rest: string)
    requires ds != [] && AllDigits(ds, false)
    requires rest == [] || DigitValue(rest[0], false).None?
    requires !HasHexPrefix(ds + rest)
    ensures ParseInt(ds + rest) == Some(DigitsValue(ds, false))
  {
    var t := ds + rest;
    assert t[0] == ds[0];
    assert !IsWhitespace(t[0]);
    TrimStartOfNonBlankStart(t);
    assert StripSign(t) == t;
    DigitRunStops(ds, rest, false);
    assert t[..|ds|] == ds;
  }

  /** A fraction is cut at the dot: `parseInt` of `ds.frac` is the integer part `ds`. */
  lemma ParseIntCutsFraction(ds: string, frac: string)
    requires ds != [] && AllDigits(ds, false)
    ensures ParseInt(ds + "." + frac) == Some(DigitsValue(ds, false))
  {
    var rest := "." + frac;
    assert ds + "." + frac == ds + rest;
    assert DigitValue(rest[0], false).None?;
    assert (ds + rest)[1] != 'x' && (ds + rest)[1] != 'X' by {
      if |ds| >= 2 {
        assert (ds + rest)[1] == ds[1];
        assert DigitValue(ds[1], false).Some?;
      } else {
        assert (ds + rest)[1] == rest[0];
      }
    }
    ParseIntReadsDecimalPrefix(ds, rest);
  }

  /** A leading `+` reads like no sign at all. */
  lemma ParseIntOfPlusSign(t: string)
    requires t == [] || (!IsWhitespace(t[0]) && t[0] != '+' && t[0] != '-')
    ensures ParseInt("+" + t) == ParseInt(t)
  {
    ParseIntOfNonBlankStart("+" + t);
    if t != [] {
      ParseIntOfNonBlankStart(t);
    }
    ParseTrimmedOfPlusSign(t);
  }

  lemma ParseTrimmedOfPlusSign(t: string)
    requires t == [] || (t[0] != '+' && t[0] != '-')
    ensures ParseTrimmed("+" + t) == ParseTrimmed(t)
  {
    assert StripSign("+" + t) == t;
    assert StripSign(t) == t;
  }

  /** After a `0x` or `0X` prefix, the longest run of hex digits is read in radix 16. */
  lemma ParseIntReadsHexPrefix(x: char, ds: string, rest: string)
    requires x == 'x' || x == 'X'
    requires ds != [] && AllDigits(ds, true)
    requires rest == [] || DigitValue(rest[0], true).None?
    ensures ParseInt(['0', x] + ds + rest) == Some(DigitsValue(ds, true))
  {
    ParseIntOfNonBlankStart(['0', x] + ds + rest);
    ParseTrimmedReadsHexPrefix(x, ds, rest);
  }

  lemma ParseTrimmedReadsHexPrefix(x: char, ds: string, rest: string)
    requires x == 'x' || x == 'X'
    requires ds != [] && AllDigits(ds, true)
    requires rest == [] || DigitValue(rest[0], true).None?
    ensures ParseTrimmed(['0', x] + ds + rest) == Some(DigitsValue(ds, true))
  {
    var t := ['0', x] + ds + rest;
    assert StripSign(t) == t;
    assert HasHexPrefix(t);
    assert t[2..] == ds + rest;
    DigitRunStops(ds, rest, true);
    assert (ds + rest)[..|ds|] == ds;
  }

  /** A sign may precede a `0x` prefix, which switches to hexadecimal. */
  lemma ParseIntReadsHex(s: string)
    requires s == "-0x1A"
    ensures ParseInt(s) == Some(-26)
  {
    TrimStartOfNonBlankStart(s);
    var u := StripSign(s);
    assert u == s[1..] && HasHexPrefix(u);
    var h := u[2..];
    assert h == "1A";
    assert DigitRun(h[1..], true) == 1 by { assert h[1..][1..] == []; }
    assert DigitRun(h, true) == 2;
    assert h[..2] == h;
    assert DigitsValue(h[..1], true) == 1 by { assert h[..1][..0] == []; }
  }

  /** Text without leading digits is NaN. */
  lemma ParseIntOfLetters(s: string)
    requires s == "abc"
    ensures ParseInt(s) == None
  {
    TrimStartOfNonBlankStart(s);
    assert StripSign(s) == s && !HasHexPrefix(s);
    assert DigitValue(s[0], false).None?;
  }
}
