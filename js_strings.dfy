/**
  The few JavaScript string operations the server applies to client input:
  `trim`, ASCII case mapping, `length` in UTF-16 code units, and decimal
  formatting of a small number inside a template literal.
*/
module JsStrings {

  /** Characters removed by `String.prototype.trim`: ECMAScript WhiteSpace and LineTerminator. */
  predicate IsJsSpace(c: char)
  {
    c == '\t' || c == '\n' || c == '\U{000B}' || c == '\U{000C}' || c == '\r' || c == ' '
    || c == '\U{00A0}' || c == '\U{1680}' || ('\U{2000}' <= c <= '\U{200A}')
    || c == '\U{2028}' || c == '\U{2029}' || c == '\U{202F}' || c == '\U{205F}'
    || c == '\U{3000}' || c == '\U{FEFF}'
  }

  /** Number of leading white-space characters of `s`. */
  function LeadingSpaces(s: string): (n: nat)
    ensures n <= |s|
    ensures forall k :: 0 <= k < n ==> IsJsSpace(s[k])
    ensures n < |s| ==> !IsJsSpace(s[n])
  {
    if s == [] || !IsJsSpace(s[0]) then 0 else 1 + LeadingSpaces(s[1..])
  }

  /** Number of trailing white-space characters of `s`. */
  function TrailingSpaces(s: string): (n: nat)
    ensures n <= |s|
    ensures forall k :: |s| - n <= k < |s| ==> IsJsSpace(s[k])
    ensures n < |s| ==> !IsJsSpace(s[|s| - 1 - n])
  {
    if s == [] || !IsJsSpace(s[|s| - 1]) then 0 else 1 + TrailingSpaces(s[..|s| - 1])
  }

  /** `String.prototype.trim`: `s` without its leading and trailing white space. */
  function Trim(s: string): (r: string)
    ensures exists i, j :: 0 <= i <= j <= |s| && r == s[i..j]
                           && (forall k :: 0 <= k < i ==> IsJsSpace(s[k]))
                           && (forall k :: j <= k < |s| ==> IsJsSpace(s[k]))
    ensures r != [] ==> !IsJsSpace(r[0]) && !IsJsSpace(r[|r| - 1])
    ensures r == [] <==> forall k :: 0 <= k < |s| ==> IsJsSpace(s[k])
  {
    var a := LeadingSpaces(s);
    var b := TrailingSpaces(s[a..]);
    TrimBounds(s, a, b);
    s[a..|s| - b]
  }

  /** The trailing run of `s[a..]` ends `s` too; what lies between the runs starts and ends with a non-space. */
  lemma TrimBounds(s: string, a: nat, b: nat)
    requires a == LeadingSpaces(s) && b == TrailingSpaces(s[a..])
    ensures a + b <= |s|
    ensures forall k :: |s| - b <= k < |s| ==> IsJsSpace(s[k])
    ensures a + b < |s| ==> !IsJsSpace(s[a]) && !IsJsSpace(s[|s| - b - 1])
    ensures a + b == |s| ==> forall k :: 0 <= k < |s| ==> IsJsSpace(s[k])
  {
    TrailingRun(s, a, b);
    if a + b < |s| {
      MiddleEnds(s, a, b);
    } else {
      AllSpace(s, a, b);
    }
  }

  lemma TrailingRun(s: string, a: nat, b: nat)
    requires a <= |s| && b == TrailingSpaces(s[a..])
    ensures a + b <= |s| && forall k :: |s| - b <= k < |s| ==> IsJsSpace(s[k])
  {
    var rest := s[a..];
    forall k | |s| - b <= k < |s|
      ensures IsJsSpace(s[k])
    {
      assert s[k] == rest[k - a];
    }
  }

  lemma MiddleEnds(s: string, a: nat, b: nat)
    requires a <= |s| && b == TrailingSpaces(s[a..]) && a + b < |s|
    ensures !IsJsSpace(s[|s| - b - 1])
  {
    var rest := s[a..];
    var j := |rest| - 1 - b;
    assert a + j == |s| - b - 1;
    assert rest[j] == s[|s| - b - 1];
  }

  lemma AllSpace(s: string, a: nat, b: nat)
    requires a == LeadingSpaces(s) && a + b == |s|
    requires forall k :: |s| - b <= k < |s| ==> IsJsSpace(s[k])
    ensures forall k :: 0 <= k < |s| ==> IsJsSpace(s[k])
  {
    forall k | 0 <= k < |s|
      ensures IsJsSpace(s[k])
    {
      if k >= a {
        assert |s| - b <= k;
      }
    }
  }

  /** `toUpperCase` on one character, restricted to the ASCII letters. */
  function UpperChar(c: char): char
  {
    if 'a' <= c <= 'z' then (c as int - 32) as char else c
  }

  /** `toLowerCase` on one character, restricted to the ASCII letters. */
  function LowerChar(c: char): char
  {
    if 'A' <= c <= 'Z' then (c as int + 32) as char else c
  }

  function ToUpperAscii(s: string): (r: string)
    ensures |r| == |s| && forall k :: 0 <= k < |s| ==> r[k] == UpperChar(s[k])
  {
    seq(|s|, k requires 0 <= k < |s| => UpperChar(s[k]))
  }

  function ToLowerAscii(s: string): (r: string)
    ensures |r| == |s| && forall k :: 0 <= k < |s| ==> r[k] == LowerChar(s[k])
  {
    seq(|s|, k requires 0 <= k < |s| => LowerChar(s[k]))
  }

  /** Width of one character in UTF-16 code units, the unit of JavaScript's `length`. */
  function Utf16Width(c: char): nat
  {
    if c as int > 0xFFFF then 2 else 1
  }

  /** `String.prototype.length`: the number of UTF-16 code units. */
  function JsLength(s: string): (n: nat)
    ensures |s| <= n <= 2 * |s|
    ensures n == |s| <==> forall k :: 0 <= k < |s| ==> s[k] as int <= 0xFFFF
  {
    if s == [] then 0 else Utf16Width(s[0]) + JsLength(s[1..])
  }

  /** Decimal digits of `n`, as a template literal `${n}` writes it. */
  function DecimalString(n: nat): (r: string)
    ensures r != [] && forall k :: 0 <= k < |r| ==> '0' <= r[k] <= '9'
  {
    var d := ((n % 10) + '0' as int) as char;
    if n < 10 then [d] else DecimalString(n / 10) + [d]
  }
}
