/**
 * Python's `int(text)` for a `str` argument in base 10, the conversion that
 * turns a molecule index given on the command line into an integer.
 *
 * The accepted form is: optional surrounding whitespace, an optional sign,
 * then one or more decimal digits in which single underscores may separate
 * digits ("1_000"). Leading zeros are allowed ("007" is 7). Anything else
 * makes Python raise ValueError, which is `None` here.
 */
module PyInt {
  import opened Wrappers

  predicate IsDigit(c: char) {
    '0' <= c <= '9'
  }

  function DigitValue(c: char): (d: nat)
    requires IsDigit(c)
    ensures d < 10
  {
    (c as int) - ('0' as int)
  }

  function DigitChar(d: nat): (c: char)
    requires d < 10
    ensures IsDigit(c) && DigitValue(c) == d
  {
    (('0' as int) + d) as char
  }

  /**
   * The whitespace `int()` strips from both ends: the ASCII space, tab, line
   * feed, vertical tab, form feed and carriage return, and the non-ASCII
   * characters Unicode counts as whitespace. The ASCII separators U+001C to
   * U+001F, which `str.isspace()` accepts, are not stripped.
   */
  predicate IsSpace(c: char) {
    || c == ' ' || ('\t' <= c <= '\r')
    || c == '\U{85}' || c == '\U{A0}' || c == '\U{1680}'
    || ('\U{2000}' <= c <= '\U{200A}')
    || c == '\U{2028}' || c == '\U{2029}' || c == '\U{202F}' || c == '\U{205F}' || c == '\U{3000}'
  }

  /** `s` with its leading whitespace removed. */
  function TrimStart(s: string): (r: string)
    ensures |r| <= |s| && r == s[|s| - |r|..]
    ensures r == [] || !IsSpace(r[0])
    ensures forall i :: 0 <= i < |s| - |r| ==> IsSpace(s[i])
  {
    if s != [] && IsSpace(s[0]) then TrimStart(s[1..]) else s
  }

  /** `s` with its trailing whitespace removed. */
  function TrimEnd(s: string): (r: string)
    ensures |r| <= |s| && r == s[..|r|]
    ensures r == [] || !IsSpace(r[|r| - 1])
    ensures forall i :: |r| <= i < |s| ==> IsSpace(s[i])
  {
    if s != [] && IsSpace(s[|s| - 1]) then TrimEnd(s[..|s| - 1]) else s
  }

  function Strip(s: string): string {
    TrimEnd(TrimStart(s))
  }

  /** Digits, with single underscores allowed only between two digits. */
  predicate IsNumeral(s: string) {
    && |s| > 0
    && IsDigit(s[0])
    && IsDigit(s[|s| - 1])
    && (forall i :: 0 <= i < |s| ==> IsDigit(s[i]) || s[i] == '_')
    && (forall i :: 0 <= i < |s| - 1 && s[i] == '_' ==> IsDigit(s[i + 1]))
  }

  predicate AllDigits(s: string) {
    forall i :: 0 <= i < |s| ==> IsDigit(s[i])
  }

  function DropUnderscores(s: string): (r: string)
    ensures (forall i :: 0 <= i < |s| ==> IsDigit(s[i]) || s[i] == '_') ==> AllDigits(r)
    ensures AllDigits(s) ==> r == s
  {
    if s == [] then []
    else if s[0] == '_' then DropUnderscores(s[1..])
    else [s[0]] + DropUnderscores(s[1..])
  }

  /** The value of a string of decimal digits, most significant first. */
  function DigitsValue(ds: string): nat
    requires AllDigits(ds)
  {
    if ds == [] then 0 else 10 * DigitsValue(ds[..|ds| - 1]) + DigitValue(ds[|ds| - 1])
  }

  function Magnitude(s: string): nat
    requires IsNumeral(s)
  {
    DigitsValue(DropUnderscores(s))
  }

  /**
   * CPython's default limit on the number of digits `int()` reads and `str()`
   * writes; past it both raise ValueError.
   */
  const MaxStrDigits: nat := 4300

  /** The number of digits in a numeral; underscores do not count. */
  function DigitCount(s: string): nat {
    |DropUnderscores(s)|
  }

  /**
   * `int` on text with no surrounding whitespace: an optional sign and a
   * numeral of at most `MaxStrDigits` digits.
   */
  function ParseText(t: string): (r: Option<int>)
    ensures IsNumeral(t) && DigitCount(t) <= MaxStrDigits ==> r == Some(Magnitude(t))
    ensures r.Some? ==> IsNumeral(t) || (|t| > 0 && (t[0] == '+' || t[0] == '-') && IsNumeral(t[1..]))
    ensures r.Some? && r.value < 0 ==> |t| > 0 && t[0] == '-'
  {
    if IsNumeral(t) then
      if DigitCount(t) <= MaxStrDigits then Some(Magnitude(t)) else None
    else if |t| > 0 && (t[0] == '+' || t[0] == '-') && IsNumeral(t[1..]) && DigitCount(t[1..]) <= MaxStrDigits then
      var m: int := Magnitude(t[1..]);
      Some(if t[0] == '-' then -m else m)
    else None
  }

  /** `int(s)`: the integer `s` denotes, or `None` where Python raises ValueError. */
  function ParseInt(s: string): (r: Option<int>)
    ensures IsNumeral(Strip(s)) && DigitCount(Strip(s)) <= MaxStrDigits ==> r == Some(Magnitude(Strip(s)))
  {
    ParseText(Strip(s))
  }

  /** `str(n)` for a natural number: its shortest decimal numeral. */
  function NatText(n: nat): (r: string)
    ensures |r| > 0 && AllDigits(r)
    ensures n > 0 ==> r[0] != '0'
  {
    if n < 10 then [DigitChar(n)] else NatText(n / 10) + [DigitChar(n % 10)]
  }

  /**
   * `str(n)` for any integer, or `None` where Python raises ValueError because
   * `n` has more than `MaxStrDigits` digits.
   */
  function IntText(n: int): Option<string> {
    var digits := NatText(if n < 0 then -n else n);
    if |digits| > MaxStrDigits then None
    else if n < 0 then Some("-" + digits)
    else Some(digits)
  }

  lemma {:induction false} NatTextValue(n: nat)
    ensures DigitsValue(NatText(n)) == n
  {
    var r := NatText(n);
    if n >= 10 {
      assert r[..|r| - 1] == NatText(n / 10);
      NatTextValue(n / 10);
    }
  }

  /** A string with no whitespace at either end is left alone by `Strip`. */
  lemma StripUnpadded(s: string)
    requires s != [] ==> !IsSpace(s[0]) && !IsSpace(s[|s| - 1])
    ensures Strip(s) == s
  {
  }

  lemma NatTextNumeral(n: nat)
    ensures IsNumeral(NatText(n)) && DigitCount(NatText(n)) == |NatText(n)|
    ensures Magnitude(NatText(n)) == n
  {
    NatTextValue(n);
  }

  lemma NatTextRoundTrip(n: nat)
    requires |NatText(n)| <= MaxStrDigits
    ensures ParseInt(NatText(n)) == Some(n)
  {
    NatTextNumeral(n);
    ParseNumeral(NatText(n));
  }

  lemma NegativeTextRoundTrip(n: int)
    requires n < 0 && |NatText(-n)| <= MaxStrDigits
    ensures ParseInt("-" + NatText(-n)) == Some(n)
  {
    var digits := NatText(-n);
    NatTextNumeral(-n);
    var m := Magnitude(digits);
    assert m == -n;
    ParseSigned('-', digits);
    assert ParseInt(['-'] + digits) == Some(-(m as int));
    assert -(m as int) == n;
    assert "-" + digits == ['-'] + digits;
  }

  /** `int(str(n)) == n` for every integer `n` that `str` can write. */
  lemma IntTextRoundTrip(n: int)
    ensures IntText(n).Some? ==> ParseInt(IntText(n).value) == Some(n)
  {
    if IntText(n).Some? {
      if n < 0 {
        NegativeTextRoundTrip(n);
      } else {
        NatTextRoundTrip(n);
      }
    }
  }

  lemma {:induction false} LeadingZeroValue(ds: string)
    requires AllDigits(ds)
    ensures AllDigits("0" + ds) && DigitsValue("0" + ds) == DigitsValue(ds)
  {
    var z := "0" + ds;
    if ds != [] {
      assert z[..|z| - 1] == "0" + ds[..|ds| - 1];
      LeadingZeroValue(ds[..|ds| - 1]);
    }
  }

  /** An unsigned numeral is read as its magnitude, unless it has too many digits. */
  lemma ParseNumeral(s: string)
    requires IsNumeral(s)
    ensures ParseInt(s) == if DigitCount(s) <= MaxStrDigits then Some(Magnitude(s)) else None
  {
    StripUnpadded(s);
  }

  /** A sign in front of a numeral: "-" negates its magnitude and "+" keeps it. */
  lemma ParseSigned(sign: char, s: string)
    requires sign == '+' || sign == '-'
    requires IsNumeral(s) && DigitCount(s) <= MaxStrDigits
    ensures ParseInt([sign] + s) == Some(if sign == '-' then -(Magnitude(s) as int) else Magnitude(s))
  {
    var t := [sign] + s;
    assert t[0] == sign && t[1..] == s && t[|t| - 1] == s[|s| - 1];
    StripUnpadded(t);
    assert !IsNumeral(t);
  }

  lemma ZeroPrefixedNumeral(s: string)
    requires IsNumeral(s)
    ensures IsNumeral("0" + s) && DropUnderscores("0" + s) == "0" + DropUnderscores(s)
  {
    var z := "0" + s;
    assert z[1..] == s;
    assert forall i :: 1 <= i < |z| ==> z[i] == s[i - 1];
  }

  /**
   * A zero written in front of a numeral does not change the integer, so
   * "7", "07" and "007" all denote 7, as long as the padded numeral stays
   * within the digit limit.
   */
  lemma LeadingZeroIgnored(s: string)
    requires IsNumeral(s)
    ensures IsNumeral("0" + s) && DigitCount("0" + s) == DigitCount(s) + 1
    ensures DigitCount(s) < MaxStrDigits ==> ParseInt("0" + s) == ParseInt(s)
  {
    ZeroPrefixedNumeral(s);
    ParseNumeral(s);
    ParseNumeral("0" + s);
    LeadingZeroValue(DropUnderscores(s));
  }

  /** A numeral with exactly the maximum number of digits is read, but padding it with a zero is refused. */
  lemma LeadingZeroPastLimit(s: string)
    requires IsNumeral(s) && DigitCount(s) == MaxStrDigits
    ensures ParseInt(s).Some? && ParseInt("0" + s).None?
  {
    ZeroPrefixedNumeral(s);
    ParseNumeral(s);
    ParseNumeral("0" + s);
  }

  /** `int("1") == 1` */
  lemma ParseOne()
    ensures ParseInt("1") == Some(1)
  {
    ParseNumeral("1");
    assert "1"[..0] == [];
  }

  /** `int("00") == 0`: the padded spelling denotes the same molecule index as "0". */
  lemma ParseDoubleZero()
    ensures ParseInt("00") == Some(0)
  {
    var z := "0";
    assert AllDigits(z) && DropUnderscores(z) == z;
    assert Magnitude(z) == 0 by { assert z[..0] == []; }
    LeadingZeroIgnored(z);
    ParseNumeral(z);
    assert "0" + z == "00";
  }
}
