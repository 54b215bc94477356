/**
  The few pieces of Python value semantics the pipeline driver relies on:
  truthiness of an attribute, what `str.format` substitutes for it, the
  suffix test `s[-n:] == suffix`, and the `int()` / `str()` conversions
  used to size memory requests.
 */
module PyValues {
  import opened Wrappers

  /** The value of one attribute of the parsed-argument namespace. */
  datatype PyVal = PyNone | PyStr(s: string) | PyBool(b: bool) | PyInt(i: int)

  /** Python truthiness: None, "", False and 0 are false. */
  predicate Truthy(v: PyVal) {
    match v
    case PyNone => false
    case PyStr(s) => s != ""
    case PyBool(b) => b
    case PyInt(i) => i != 0
  }

  /** The text `'{}'.format(v)` produces. */
  function Show(v: PyVal): string {
    match v
    case PyNone => "None"
    case PyStr(s) => s
    case PyBool(b) => if b then "True" else "False"
    case PyInt(i) => IntToString(i)
  }

  /** The string an attribute holds, or "" when it holds none. */
  function Text(v: PyVal): string {
    if v.PyStr? then v.s else ""
  }

  // ---------------------------------------------------------------------
  // Suffixes

  predicate EndsWith(s: string, suffix: string) {
    |suffix| <= |s| && s[|s| - |suffix|..] == suffix
  }

  lemma EndsWithAppend(s: string, suffix: string)
    ensures EndsWith(s + suffix, suffix)
  {
    assert (s + suffix)[|s + suffix| - |suffix|..] == suffix;
  }

  /** Python's slice `s[-n:]` for n > 0: the last n characters, or all of s when shorter. */
  function LastChars(s: string, n: nat): (r: string)
    ensures |r| <= n && |r| <= |s|
    ensures r == s[|s| - |r|..]
  {
    if |s| <= n then s else s[|s| - n..]
  }

  /** The source's test `s[-3:] == '.gz'` is exactly a suffix test, short strings included. */
  lemma LastCharsIsSuffixTest(s: string, suffix: string)
    requires suffix != ""
    ensures (LastChars(s, |suffix|) == suffix) <==> EndsWith(s, suffix)
  {
    if |s| < |suffix| {
      assert |LastChars(s, |suffix|)| < |suffix|;
    }
  }

  // ---------------------------------------------------------------------
  // Decimal numerals

  predicate IsDigit(c: char) {
    '0' <= c <= '9'
  }

  predicate AllDigits(s: string) {
    forall i :: 0 <= i < |s| ==> IsDigit(s[i])
  }

  function DigitChar(d: nat): (c: char)
    requires d < 10
    ensures IsDigit(c)
  {
    ('0' as int + d) as char
  }

  function DigitValue(c: char): (d: nat)
    requires IsDigit(c)
    ensures d < 10 && DigitChar(d) == c
  {
    c as int - '0' as int
  }

  /** The decimal numeral of n, most significant digit first. */
  function NatToString(n: nat): (r: string)
    ensures r != [] && AllDigits(r)
    decreases n
  {
    if n < 10 then [DigitChar(n)] else NatToString(n / 10) + [DigitChar(n % 10)]
  }

  /** `str(i)` for an int. */
  function IntToString(i: int): (r: string)
    ensures r != []
    ensures i >= 0 ==> AllDigits(r)
    ensures i < 0 ==> r[0] == '-' && AllDigits(r[1..])
  {
    if i < 0 then "-" + NatToString(-i) else NatToString(i)
  }

  /** The value of a non-empty digit string, read left to right. */
  function DigitsValue(s: string): nat
    requires AllDigits(s)
    decreases |s|
  {
    if s == [] then 0 else DigitsValue(s[..|s| - 1]) * 10 + DigitValue(s[|s| - 1])
  }

  /** The whitespace `int()` ignores around a numeral (ASCII space, \t, \n, \v, \f, \r). */
  predicate IsSpace(c: char) {
    c == ' ' || 9 <= c as int <= 13
  }

  /** `s.lstrip()`: s without its leading whitespace. */
  function StripLeft(s: string): string
    decreases |s|
  {
    if s != [] && IsSpace(s[0]) then StripLeft(s[1..]) else s
  }

  /** `s.rstrip()`: s without its trailing whitespace. */
  function StripRight(s: string): string
    decreases |s|
  {
    if s != [] && IsSpace(s[|s| - 1]) then StripRight(s[..|s| - 1]) else s
  }

  /** Stripping the left keeps a suffix of the string that starts with no whitespace. */
  lemma {:induction false} StripLeftKeepsSuffix(s: string)
    ensures var r := StripLeft(s); |r| <= |s| && r == s[|s| - |r|..] && (r != [] ==> !IsSpace(r[0]))
    decreases |s|
  {
    if s != [] && IsSpace(s[0]) {
      StripLeftKeepsSuffix(s[1..]);
    }
  }

  /** Stripping the right keeps a prefix of the string that ends with no whitespace. */
  lemma {:induction false} StripRightKeepsPrefix(s: string)
    ensures var r := StripRight(s); |r| <= |s| && r == s[..|r|] && (r != [] ==> !IsSpace(r[|r| - 1]))
    decreases |s|
  {
    if s != [] && IsSpace(s[|s| - 1]) {
      StripRightKeepsPrefix(s[..|s| - 1]);
    }
  }

  /**
    An optional sign, then one or more decimal digits. Whitespace may stand
    between the sign and the digits, as Python 2 skips it there too.
   */
  function ParseSigned(t: string): (r: Option<int>)
    ensures r.Some? ==> t != []
  {
    if t != [] && (t[0] == '-' || t[0] == '+') then
      var ds := StripLeft(t[1..]);
      if ds != [] && AllDigits(ds) then
        Some(if t[0] == '-' then -(DigitsValue(ds) as int) else DigitsValue(ds))
      else None
    else if t != [] && AllDigits(t) then Some(DigitsValue(t))
    else None
  }

  /** `int(s)` for a string: None where Python raises ValueError. */
  function ParseInt(s: string): Option<int> {
    ParseSigned(StripRight(StripLeft(s)))
  }

  /** `int(v)` for an attribute value: None where Python raises. */
  function IntOf(v: PyVal): Option<int> {
    match v
    case PyNone => None
    case PyStr(s) => ParseInt(s)
    case PyBool(b) => Some(if b then 1 else 0)
    case PyInt(i) => Some(i)
  }

  lemma {:induction false} DigitsValueOfNatToString(n: nat)
    ensures DigitsValue(NatToString(n)) == n
    decreases n
  {
    var s := NatToString(n);
    if n >= 10 {
      DigitsValueOfNatToString(n / 10);
      assert s[..|s| - 1] == NatToString(n / 10);
      assert s[|s| - 1] == DigitChar(n % 10);
    }
  }

  lemma StripUnpadded(s: string)
    requires s != [] && !IsSpace(s[0]) && !IsSpace(s[|s| - 1])
    ensures StripRight(StripLeft(s)) == s
  {
  }

  predicate AllSpace(s: string) {
    forall k :: 0 <= k < |s| ==> IsSpace(s[k])
  }

  lemma {:induction false} StripLeftSkipsGap(gap: string, s: string)
    requires AllSpace(gap)
    requires s != [] && !IsSpace(s[0])
    ensures StripLeft(gap + s) == s
    decreases |gap|
  {
    if gap != [] {
      assert (gap + s)[1..] == gap[1..] + s;
      StripLeftSkipsGap(gap[1..], s);
    } else {
      assert gap + s == s;
    }
  }

  /** The unsigned branch of `ParseSigned`: a run of digits is its value. */
  lemma ParseSignedOfDigits(ds: string)
    requires ds != [] && AllDigits(ds)
    ensures ParseSigned(ds) == Some(DigitsValue(ds) as int)
  {
    assert IsDigit(ds[0]);
  }

  /** The signed branch of `ParseSigned`: a minus sign, whitespace, then a run of digits. */
  lemma ParseSignedOfNegated(t: string, ds: string)
    requires t != [] && t[0] == '-' && StripLeft(t[1..]) == ds
    requires ds != [] && AllDigits(ds)
    ensures ParseSigned(t) == Some(-(DigitsValue(ds) as int))
  {
  }

  /** `int(str(i)) == i`: the numeral written into a resource request reads back as the number. */
  lemma ParseIntOfIntToString(i: int)
    ensures ParseInt(IntToString(i)) == Some(i)
  {
    var s := IntToString(i);
    StripUnpadded(s);
    var ds := NatToString(if i < 0 then -i else i);
    DigitsValueOfNatToString(if i < 0 then -i else i);
    if i < 0 {
      assert s == "-" + ds && s[1..] == ds;
      StripLeftSkipsGap([], ds);
      assert [] + ds == ds;
      ParseSignedOfNegated(s, ds);
    } else {
      ParseSignedOfDigits(ds);
    }
  }

  /** The signed branch once the outer whitespace is gone: a minus sign, whitespace, then a numeral. */
  lemma ParseSignedSkipsGap(gap: string, n: nat)
    requires AllSpace(gap)
    ensures ParseSigned("-" + gap + NatToString(n)) == Some(-(n as int))
  {
    var ds := NatToString(n);
    var t := "-" + gap + ds;
    assert t[0] == '-' && t[1..] == gap + ds;
    StripLeftSkipsGap(gap, ds);
    assert StripLeft(t[1..]) == ds;
    DigitsValueOfNatToString(n);
    assert ds != [] && AllDigits(ds) && DigitsValue(ds) == n;
  }

  lemma {:induction false} StripRightSkipsGap(s: string, gap: string)
    requires AllSpace(gap)
    requires s != [] && !IsSpace(s[|s| - 1])
    ensures StripRight(s + gap) == s
    decreases |gap|
  {
    if gap != [] {
      assert (s + gap)[..|s + gap| - 1] == s + gap[..|gap| - 1];
      StripRightSkipsGap(s, gap[..|gap| - 1]);
    } else {
      assert s + gap == s;
    }
  }

  /**
    A sign written apart from its digits still reads as a signed number:
    `int(' - 4 ') == -4`, with whitespace before, inside and after.
   */
  lemma SpaceAfterSignAccepted(lead: string, gap: string, n: nat, trail: string)
    requires AllSpace(lead) && AllSpace(gap) && AllSpace(trail)
    ensures ParseInt(lead + ("-" + gap + NatToString(n)) + trail) == Some(-(n as int))
  {
    var ds := NatToString(n);
    var t := "-" + gap + ds;
    assert t[|t| - 1] == ds[|ds| - 1] && IsDigit(ds[|ds| - 1]);
    assert lead + t + trail == lead + (t + trail);
    StripLeftSkipsGap(lead, t + trail);
    StripRightSkipsGap(t, trail);
    ParseSignedSkipsGap(gap, n);
  }

  /** A numeral holds only digits and a minus sign, so a unit letter written after it marks where it ends. */
  lemma NumeralHasOnlyDigitsAndMinus(i: int, c: char)
    requires c != '-' && !IsDigit(c)
    ensures forall k :: 0 <= k < |IntToString(i)| ==> IntToString(i)[k] != c
  {
    var s := IntToString(i);
    forall k | 0 <= k < |s|
      ensures s[k] != c
    {
      if i < 0 && k > 0 {
        assert s[k] == s[1..][k - 1];
      }
    }
  }

  /**
    What `'{}'.format(v)` writes reads back through `int()` as `int(v)` for
    integers and strings. `True`, `False` and `None` are written as words,
    which `int()` rejects.
   */
  lemma ShowReadsBack(v: PyVal)
    ensures (v.PyInt? || v.PyStr?) ==> IntOf(PyStr(Show(v))) == IntOf(v)
    ensures (v.PyBool? || v.PyNone?) ==> IntOf(PyStr(Show(v))) == None
  {
    match v
    case PyInt(i) => ParseIntOfIntToString(i);
    case PyStr(_) =>
    case _ =>
      var w := Show(v);
      StripUnpadded(w);
      assert !IsDigit(w[0]) && w[0] != '-' && w[0] != '+';
  }
}
