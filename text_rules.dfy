/**
 * String primitives the pages and the server use, written out the way a
 * JavaScript engine evaluates them: the `\d` class, the phone pattern
 * `^[+]?\d*$`, `toLowerCase` (ASCII letters only), `includes`, `trim`,
 * `.length` (UTF-16 code units) and the decimal rendering of numbers.
 */
module TextRules {

  // ---------------------------------------------------------------- digits

  /** JavaScript's `\d`: exactly the ASCII digits. */
  predicate IsDigit(c: char) {
    '0' <= c <= '9'
  }

  /** `/\d/.test(s)`: some character of `s` is a digit. */
  function ContainsDigit(s: string): (r: bool)
    ensures r <==> exists i :: 0 <= i < |s| && IsDigit(s[i])
  {
    if s == [] then false
    else if IsDigit(s[0]) then true
    else
      var rest := ContainsDigit(s[1..]);
      assert forall i :: 0 < i < |s| ==> s[i] == s[1..][i - 1];
      rest
  }

  predicate AllDigits(s: string) {
    forall i :: 0 <= i < |s| ==> IsDigit(s[i])
  }

  // ------------------------------------------------ the phone pattern ^[+]?\d*$

  /** States of the matcher for `^[+]?\d*$`. */
  datatype PhoneState = AtStart | InDigits | Dead

  function PhoneStep(st: PhoneState, c: char): PhoneState {
    match st
    case AtStart => if c == '+' || IsDigit(c) then InDigits else Dead
    case InDigits => if IsDigit(c) then InDigits else Dead
    case Dead => Dead
  }

  function PhoneRun(st: PhoneState, s: string): PhoneState
    decreases |s|
  {
    if s == [] then st else PhoneRun(PhoneStep(st, s[0]), s[1..])
  }

  /** `/^[+]?\d*$/.test(s)`: the matcher reads all of `s` without dying. */
  predicate MatchesPhonePattern(s: string) {
    PhoneRun(AtStart, s) != Dead
  }

  lemma {:induction false} RunInDigits(s: string)
    ensures PhoneRun(InDigits, s) != Dead <==> AllDigits(s)
  {
    if s != [] {
      RunInDigits(s[1..]);
      if !IsDigit(s[0]) {
        DeadStaysDead(s[1..]);
      }
    }
  }

  lemma {:induction false} DeadStaysDead(s: string)
    ensures PhoneRun(Dead, s) == Dead
  {
    if s != [] {
      DeadStaysDead(s[1..]);
    }
  }

  /**
   * The pattern accepts exactly the strings made of digits, except that the
   * first character may be a `+` (the empty string included).
   */
  lemma PhonePatternMeaning(s: string)
    ensures MatchesPhonePattern(s) <==> forall i :: 0 <= i < |s| ==> IsDigit(s[i]) || (i == 0 && s[i] == '+')
  {
    if s != [] {
      RunInDigits(s[1..]);
      if !(s[0] == '+' || IsDigit(s[0])) {
        DeadStaysDead(s[1..]);
      }
      assert forall i :: 0 < i < |s| ==> s[i] == s[1..][i - 1];
    }
  }

  // ------------------------------------------------------------ .length

  /** `s.length`: the number of UTF-16 code units; a character beyond U+FFFF takes two. */
  function Utf16Length(s: string): (n: nat)
    ensures |s| <= n <= 2 * |s|
  {
    if s == [] then 0 else (if s[0] as int > 0xFFFF then 2 else 1) + Utf16Length(s[1..])
  }

  predicate InBmp(s: string) {
    forall i :: 0 <= i < |s| ==> s[i] as int <= 0xFFFF
  }

  /** For text inside the Basic Multilingual Plane, `.length` counts characters. */
  lemma {:induction false} BmpLength(s: string)
    requires InBmp(s)
    ensures Utf16Length(s) == |s|
  {
    if s != [] {
      assert InBmp(s[1..]) by {
        assert forall i :: 0 <= i < |s| - 1 ==> s[1..][i] == s[i + 1];
      }
      BmpLength(s[1..]);
    }
  }

  /**
   * A string the phone pattern accepts is plain ASCII, so its `.length` is
   * its number of characters.
   */
  lemma PhoneLength(s: string)
    requires MatchesPhonePattern(s)
    ensures Utf16Length(s) == |s|
  {
    PhonePatternMeaning(s);
    BmpLength(s);
  }

  /** The phone fields' input filter: `/^[+]?\d*$/.test(v) && v.length <= 13`. */
  predicate AcceptsPhoneInput(v: string) {
    MatchesPhonePattern(v) && Utf16Length(v) <= 13
  }

  /**
   * An accepted phone input is at most 13 characters, all digits except for
   * an optional leading `+`; and every such string is accepted.
   */
  lemma AcceptsPhoneInputMeaning(v: string)
    ensures AcceptsPhoneInput(v) <==> |v| <= 13 && forall i :: 0 <= i < |v| ==> IsDigit(v[i]) || (i == 0 && v[i] == '+')
  {
    PhonePatternMeaning(v);
    if MatchesPhonePattern(v) {
      PhoneLength(v);
    }
  }

  // ------------------------------------------------------------ toLowerCase

  function LowerChar(c: char): char {
    if 'A' <= c <= 'Z' then (c as int + 32) as char else c
  }

  /** `s.toLowerCase()`, restricted to the ASCII letters. */
  function ToLower(s: string): (r: string)
    ensures |r| == |s|
    ensures forall i :: 0 <= i < |s| ==> r[i] == LowerChar(s[i])
    ensures forall i :: 0 <= i < |r| ==> !('A' <= r[i] <= 'Z')
  {
    seq(|s|, i requires 0 <= i < |s| => LowerChar(s[i]))
  }

  /** Lower-casing only folds letters, so it never changes whether a string holds a digit. */
  lemma ToLowerKeepsDigits(s: string)
    ensures ContainsDigit(ToLower(s)) == ContainsDigit(s)
  {
    assert forall i :: 0 <= i < |s| ==> (IsDigit(ToLower(s)[i]) <==> IsDigit(s[i]));
  }

  // ------------------------------------------------------------ includes

  /** `s.includes(t)`: `t` occurs in `s` at some position. */
  function Includes(s: string, t: string): (r: bool)
    ensures r <==> exists i :: 0 <= i <= |s| && t <= s[i..]
  {
    if t <= s then
      assert t <= s[0..];
      true
    else if s == [] then false
    else
      var rest := Includes(s[1..], t);
      assert forall i :: 1 <= i <= |s| ==> s[i..] == s[1..][i - 1..];
      rest
  }

  /** Every string includes the empty string. */
  lemma IncludesEmpty(s: string)
    ensures Includes(s, "")
  {
    assert "" <= s[0..];
  }

  // ------------------------------------------------------------ trim

  /** The characters `String.prototype.trim` removes: white space and line terminators. */
  predicate IsJsWhitespace(c: char) {
    c in {'\t', '\n', '\U{000B}', '\U{000C}', '\r', ' ', '\U{00A0}', '\U{1680}',
          '\U{2000}', '\U{2001}', '\U{2002}', '\U{2003}', '\U{2004}', '\U{2005}',
          '\U{2006}', '\U{2007}', '\U{2008}', '\U{2009}', '\U{200A}', '\U{2028}',
          '\U{2029}', '\U{202F}', '\U{205F}', '\U{3000}', '\U{FEFF}'}
  }

  function TrimStart(s: string): (r: string)
    ensures |r| <= |s| && r == s[|s| - |r|..]
    ensures forall i :: 0 <= i < |s| - |r| ==> IsJsWhitespace(s[i])
    ensures r != [] ==> !IsJsWhitespace(r[0])
  {
    if s != [] && IsJsWhitespace(s[0]) then
      var r := TrimStart(s[1..]);
      assert forall i :: 1 <= i < |s| ==> s[i] == s[1..][i - 1];
      r
    else s
  }

  function TrimEnd(s: string): (r: string)
    ensures |r| <= |s| && r == s[..|r|]
    ensures forall i :: |r| <= i < |s| ==> IsJsWhitespace(s[i])
    ensures r != [] ==> !IsJsWhitespace(r[|r| - 1])
  {
    if s != [] && IsJsWhitespace(s[|s| - 1]) then TrimEnd(s[..|s| - 1]) else s
  }

  /** `r` is the slice of `s` at `k`, with only white space before and after it. */
  predicate SliceBetweenBlanks(s: string, r: string, k: int) {
    && 0 <= k <= k + |r| <= |s| && r == s[k..k + |r|]
    && (forall i :: 0 <= i < k ==> IsJsWhitespace(s[i]))
    && (forall i :: k + |r| <= i < |s| ==> IsJsWhitespace(s[i]))
  }

  /** `s.trim()`: `s` without the white space at its two ends. */
  function Trim(s: string): (r: string)
    ensures exists k :: SliceBetweenBlanks(s, r, k)
    ensures r != [] ==> !IsJsWhitespace(r[0]) && !IsJsWhitespace(r[|r| - 1])
  {
    var t := TrimStart(s);
    var r := TrimEnd(t);
    var k := |s| - |t|;
    assert r == s[k..k + |r|];
    assert forall i :: k + |r| <= i < |s| ==> s[i] == t[i - k];
    assert SliceBetweenBlanks(s, r, k);
    r
  }

  predicate IsBlank(s: string) {
    forall i :: 0 <= i < |s| ==> IsJsWhitespace(s[i])
  }

  /** `!s.trim()` holds exactly when `s` is empty or white space only. */
  lemma TrimEmptyIffBlank(s: string)
    ensures Trim(s) == "" <==> IsBlank(s)
  {
  }

  // ------------------------------------------------------------ numbers

  function DigitChar(d: nat): char
    requires d < 10
  {
    ('0' as int + d) as char
  }

  /** The decimal digits of `n`, without leading zeros. */
  function Digits(n: nat): (r: string)
    ensures 1 <= |r| && AllDigits(r)
    ensures |r| > 1 ==> r[0] != '0'
  {
    if n < 10 then [DigitChar(n)] else Digits(n / 10) + [DigitChar(n % 10)]
  }

  /** `String(n)` for an integer. */
  function DecimalString(n: int): string {
    if n < 0 then "-" + Digits(-n) else Digits(n)
  }

  /** The value of a string of decimal digits. */
  function ParseDigits(s: string): nat
    requires AllDigits(s)
  {
    if s == [] then 0 else ParseDigits(s[..|s| - 1]) * 10 + (s[|s| - 1] as int - '0' as int)
  }

  /** Reading back the digits of `n` gives `n`. */
  lemma {:induction false} DigitsRoundTrip(n: nat)
    ensures ParseDigits(Digits(n)) == n
  {
    if n >= 10 {
      var d := Digits(n / 10);
      assert (d + [DigitChar(n % 10)])[..|d|] == d;
      DigitsRoundTrip(n / 10);
    }
  }

  function Zeros(k: nat): (r: string)
    ensures |r| == k && AllDigits(r)
  {
    if k == 0 then "" else "0" + Zeros(k - 1)
  }

  /** `n` written with at least `width` digits, padded on the left with zeros. */
  function PadDigits(n: nat, width: nat): (r: string)
    ensures AllDigits(r) && |r| >= width
  {
    var d := Digits(n);
    if |d| >= width then d else Zeros(width - |d|) + d
  }

  /** Leading zeros do not change the value. */
  lemma {:induction false} ZerosPrefix(k: nat, s: string)
    requires AllDigits(s)
    ensures ParseDigits(Zeros(k) + s) == ParseDigits(s)
  {
    if k > 0 {
      var t := Zeros(k - 1) + s;
      assert AllDigits(t);
      assert Zeros(k) + s == "0" + t;
      ZerosPrefix(k - 1, s);
      OneZeroPrefix(t);
    } else {
      assert Zeros(k) + s == s;
    }
  }

  lemma {:induction false} OneZeroPrefix(s: string)
    requires AllDigits(s)
    ensures ParseDigits("0" + s) == ParseDigits(s)
  {
    if s != [] {
      var init := s[..|s| - 1];
      assert ("0" + s)[..|s|] == "0" + init;
      OneZeroPrefix(init);
    }
  }

  /** Reading back a zero-padded number gives the number. */
  lemma PadRoundTrip(n: nat, width: nat)
    ensures ParseDigits(PadDigits(n, width)) == n
  {
    var d := Digits(n);
    DigitsRoundTrip(n);
    if |d| < width {
      assert PadDigits(n, width) == Zeros(width - |d|) + d;
      ZerosPrefix(width - |d|, d);
    } else {
      assert PadDigits(n, width) == d;
    }
  }

  /** Numbers below 10^width take exactly `width` characters once padded. */
  lemma {:induction false} PadWidth(n: nat, width: nat)
    requires 1 <= width && n < Pow10(width)
    ensures |PadDigits(n, width)| == width
  {
    DigitsLength(n, width);
  }

  function Pow10(k: nat): (r: nat)
    ensures r >= 1
  {
    if k == 0 then 1 else 10 * Pow10(k - 1)
  }

  lemma {:induction false} DigitsLength(n: nat, width: nat)
    requires 1 <= width && n < Pow10(width)
    ensures |Digits(n)| <= width
  {
    if n >= 10 {
      assert width > 1;
      DigitsLength(n / 10, width - 1);
    }
  }
}
