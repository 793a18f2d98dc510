/** The few string conversions the screens rely on: decimal rendering of
    numbers (template literals, `toString`, `padStart(2, '0')`), decimal
    parsing (`Number` on a digit string) and `String.prototype.trim`. */
module Text {

  function DigitChar(d: nat): (c: char)
    requires d < 10
  {
    (48 + d) as char
  }

  predicate IsDigit(c: char) {
    '0' <= c <= '9'
  }

  /** A non-empty run of decimal digits. */
  predicate IsDigits(s: string) {
    |s| > 0 && forall i :: 0 <= i < |s| ==> IsDigit(s[i])
  }

  /** The value of a digit string (what `Number` gives for one). */
  function DigitsValue(s: string): nat
    decreases |s|
  {
    if s == [] then 0
    else
      var d := s[|s| - 1] as int - 48;
      DigitsValue(s[..|s| - 1]) * 10 + (if 0 <= d then d else 0)
  }

  /** The decimal rendering of a natural number, without leading zeros. */
  function NatText(n: nat): string
    decreases n
  {
    if n < 10 then [DigitChar(n)] else NatText(n / 10) + [DigitChar(n % 10)]
  }

  /** The decimal rendering of an integer, with a minus sign when negative. */
  function IntText(n: int): string {
    if n < 0 then "-" + NatText(-n) else NatText(n)
  }

  /** Rendering then parsing gives the number back. */
  lemma {:induction false} NatTextRoundTrip(n: nat)
    ensures IsDigits(NatText(n)) && DigitsValue(NatText(n)) == n
    ensures n < 10 <==> |NatText(n)| == 1
    ensures 10 <= n < 100 ==> |NatText(n)| == 2
    decreases n
  {
    if n >= 10 {
      NatTextRoundTrip(n / 10);
      var s := NatText(n);
      assert s[..|s| - 1] == NatText(n / 10);
    }
  }

  /** A leading zero does not change the value of a digit string. */
  lemma {:induction false} LeadingZero(s: string)
    ensures DigitsValue("0" + s) == DigitsValue(s)
    decreases |s|
  {
    if s != [] {
      assert ("0" + s)[..|"0" + s| - 1] == "0" + s[..|s| - 1];
      LeadingZero(s[..|s| - 1]);
    }
  }

  /** `n.toString().padStart(2, '0')` */
  function Pad2(n: nat): string {
    var t := NatText(n);
    if |t| < 2 then "0" + t else t
  }

  /** Two-digit padding of a number below 100 is two digits with the right value. */
  lemma Pad2Value(n: nat)
    requires n < 100
    ensures |Pad2(n)| == 2 && IsDigits(Pad2(n)) && DigitsValue(Pad2(n)) == n
  {
    NatTextRoundTrip(n);
    if n < 10 {
      LeadingZero(NatText(n));
      assert Pad2(n) == "0" + NatText(n);
      assert IsDigit(Pad2(n)[0]);
    }
  }

  /** Two-digit padding of a number below 100 is its tens digit then its units digit. */
  lemma Pad2Digits(n: nat)
    requires n < 100
    ensures Pad2(n) == [DigitChar(n / 10), DigitChar(n % 10)]
  {
    if n >= 10 {
      assert NatText(n / 10) == [DigitChar(n / 10)];
    }
  }

  /** JavaScript's `<` on strings: code-unit lexicographic order, a proper
      prefix coming first. */
  predicate JsLess(a: string, b: string)
    decreases |a|
  {
    if a == [] then b != []
    else if b == [] then false
    else if a[0] != b[0] then a[0] < b[0]
    else JsLess(a[1..], b[1..])
  }

  /** JavaScript's `<=` on strings. */
  predicate JsLessEq(a: string, b: string) {
    a == b || JsLess(a, b)
  }

  /** Behind prefixes of equal length, the prefixes decide unless they are equal. */
  lemma {:induction false} JsLessConcat(p: string, q: string, r: string, s: string)
    requires |p| == |q|
    ensures JsLess(p + r, q + s) <==> JsLess(p, q) || (p == q && JsLess(r, s))
    decreases |p|
  {
    if p == [] {
      assert p + r == r && q + s == s;
    } else {
      assert (p + r)[0] == p[0] && (q + s)[0] == q[0];
      assert (p + r)[1..] == p[1..] + r && (q + s)[1..] == q[1..] + s;
      JsLessConcat(p[1..], q[1..], r, s);
      assert p == [p[0]] + p[1..] && q == [q[0]] + q[1..];
    }
  }

  lemma JsLessEqConcat(p: string, q: string, r: string, s: string)
    requires |p| == |q|
    ensures JsLessEq(p + r, q + s) <==> JsLess(p, q) || (p == q && JsLessEq(r, s))
  {
    JsLessConcat(p, q, r, s);
    if p + r == q + s {
      assert p == (p + r)[..|p|] && q == (q + s)[..|q|];
      assert r == (p + r)[|p|..] && s == (q + s)[|q|..];
    }
  }

  /** Padded to two digits, numbers below 100 compare as strings as they do as numbers. */
  lemma Pad2Order(a: nat, b: nat)
    requires a < 100 && b < 100
    ensures JsLess(Pad2(a), Pad2(b)) <==> a < b
    ensures Pad2(a) == Pad2(b) <==> a == b
  {
    Pad2Digits(a);
    Pad2Digits(b);
    var ta, ua, tb, ub := a / 10, a % 10, b / 10, b % 10;
    assert a == 10 * ta + ua && b == 10 * tb + ub;
    assert a < b <==> ta < tb || (ta == tb && ua < ub);
    var x, y := Pad2(a), Pad2(b);
    assert x[0] < y[0] <==> ta < tb;
    assert x[0] == y[0] <==> ta == tb;
    assert x[1..] == [DigitChar(ua)] && y[1..] == [DigitChar(ub)];
    assert JsLess(x[1..], y[1..]) <==> ua < ub by {
      assert x[1..][1..] == [] && y[1..][1..] == [];
    }
  }

  /** The characters `String.prototype.trim` removes: the ECMAScript
      WhiteSpace and LineTerminator code points. */
  predicate IsJsSpace(c: char) {
    var n := c as int;
    n == 0x20 || (0x09 <= n <= 0x0D) || n == 0xA0 || n == 0x1680 || (0x2000 <= n <= 0x200A)
    || n == 0x2028 || n == 0x2029 || n == 0x202F || n == 0x205F || n == 0x3000 || n == 0xFEFF
  }

  function TrimStart(s: string): string
    decreases |s|
  {
    if s != [] && IsJsSpace(s[0]) then TrimStart(s[1..]) else s
  }

  function TrimEnd(s: string): string
    decreases |s|
  {
    if s != [] && IsJsSpace(s[|s| - 1]) then TrimEnd(s[..|s| - 1]) else s
  }

  /** `s.trim()` */
  function Trim(s: string): string {
    TrimEnd(TrimStart(s))
  }

  /** Whether every character is whitespace (so that `s.trim()` is falsy). */
  predicate Blank(s: string) {
    forall i :: 0 <= i < |s| ==> IsJsSpace(s[i])
  }

  lemma {:induction false} TrimStartBlank(s: string)
    ensures TrimStart(s) == "" <==> Blank(s)
    ensures TrimStart(s) != "" ==> !IsJsSpace(TrimStart(s)[0])
    decreases |s|
  {
    if s != [] && IsJsSpace(s[0]) {
      TrimStartBlank(s[1..]);
      if !Blank(s) {
        var i :| 0 <= i < |s| && !IsJsSpace(s[i]);
        assert s[1..][i - 1] == s[i];
      }
    }
  }

  lemma {:induction false} TrimEndKeepsFirst(s: string)
    requires s != [] && !IsJsSpace(s[0])
    ensures TrimEnd(s) != ""
    decreases |s|
  {
    if IsJsSpace(s[|s| - 1]) {
      TrimEndKeepsFirst(s[..|s| - 1]);
    }
  }

  /** `s.trim()` is empty exactly when `s` is all whitespace. */
  lemma TrimEmptyIffBlank(s: string)
    ensures Trim(s) == "" <==> Blank(s)
  {
    TrimStartBlank(s);
    if TrimStart(s) != "" {
      TrimEndKeepsFirst(TrimStart(s));
    }
  }
}
