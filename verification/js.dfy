/**
 * The slice of JavaScript's value semantics that the profile card script relies on:
 * optional properties (absent or null), settled promises, truthiness of strings and
 * numbers, `String.prototype.trim`, and the decimal text a template literal gives an
 * integer.
 */
module Js {

  /** A JSON property that may be absent or null (`None`) or hold a value. */
  datatype Option<+T> = None | Some(value: T)

  /** One entry of the array `Promise.allSettled` resolves to; the rejection reason is only logged. */
  datatype Settled<+T> = Fulfilled(value: T) | Rejected

  /** Truthiness of a string-valued property: absent, null and "" are falsy. */
  predicate TruthyText(s: Option<string>)
  {
    s.Some? && s.value != ""
  }

  /** Truthiness of a number-valued property: absent, null and 0 are falsy. */
  predicate TruthyNumber(n: Option<int>)
  {
    n.Some? && n.value != 0
  }

  // ---------------------------------------------------------------------------
  // String.prototype.trim
  // ---------------------------------------------------------------------------

  /** The characters `trim` removes: ECMAScript WhiteSpace (tab, VT, FF, space, NBSP, BOM, category Zs) and LineTerminator. */
  predicate IsTrimSpace(c: char)
  {
    || c == '\t' || c == '\n' || c == '\U{000B}' || c == '\U{000C}' || c == '\r' || c == ' '
    || c == '\U{00A0}' || c == '\U{1680}' || ('\U{2000}' <= c <= '\U{200A}')
    || c == '\U{2028}' || c == '\U{2029}' || c == '\U{202F}' || c == '\U{205F}'
    || c == '\U{3000}' || c == '\U{FEFF}'
  }

  /** Every character of `s` from index `i` up to index `j` is a trim-space character. */
  predicate SpaceBetween(s: string, i: nat, j: nat)
    requires i <= j <= |s|
  {
    forall k | i <= k < j :: IsTrimSpace(s[k])
  }

  /** The index of the first character at or after `i` that `trim` keeps, or `|s|`. */
  function TrimStartIndex(s: string, i: nat): (r: nat)
    requires i <= |s|
    ensures i <= r <= |s| && SpaceBetween(s, i, r)
    ensures r < |s| ==> !IsTrimSpace(s[r])
    decreases |s| - i
  {
    if i < |s| && IsTrimSpace(s[i]) then TrimStartIndex(s, i + 1) else i
  }

  /** The index just after the last character before `j`, and not before `lo`, that `trim` keeps. */
  function TrimEndIndex(s: string, lo: nat, j: nat): (r: nat)
    requires lo <= j <= |s|
    ensures lo <= r <= j && SpaceBetween(s, r, j)
    ensures r > lo ==> !IsTrimSpace(s[r - 1])
  {
    if j > lo && IsTrimSpace(s[j - 1]) then TrimEndIndex(s, lo, j - 1) else j
  }

  /** `s.trim()`: the text between the leading and the trailing trim-space characters. */
  function Trim(s: string): (r: string)
    ensures r == [] || (!IsTrimSpace(r[0]) && !IsTrimSpace(r[|r| - 1]))
    ensures exists i, j | 0 <= i <= j <= |s| :: r == s[i..j] && SpaceBetween(s, 0, i) && SpaceBetween(s, j, |s|)
  {
    var i := TrimStartIndex(s, 0);
    var j := TrimEndIndex(s, i, |s|);
    assert SpaceBetween(s, 0, i) && SpaceBetween(s, j, |s|);
    s[i..j]
  }

  /** Trimming leaves nothing exactly when every character is a trim-space character. */
  lemma TrimEmptyIff(s: string)
    ensures Trim(s) == [] <==> SpaceBetween(s, 0, |s|)
  {
    var i := TrimStartIndex(s, 0);
    var j := TrimEndIndex(s, i, |s|);
    assert Trim(s) == s[i..j];
    if SpaceBetween(s, 0, |s|) {
      assert i == |s|;
    }
    if Trim(s) == [] {
      // nothing is kept, so the first kept index is already the end
      assert i == j && SpaceBetween(s, j, |s|);
      assert SpaceBetween(s, 0, i);
    }
  }

  // ---------------------------------------------------------------------------
  // Decimal text of an integer, as `${n}` renders a safe integer
  // ---------------------------------------------------------------------------

  predicate IsDigit(c: char)
  {
    '0' <= c <= '9'
  }

  function DigitChar(d: nat): (c: char)
    requires d < 10
    ensures IsDigit(c) && c as int - '0' as int == d
  {
    "0123456789"[d]
  }

  /** The decimal digits of `n`, without leading zeros. */
  function NatText(n: nat): (r: string)
    ensures r != [] && (forall i | 0 <= i < |r| :: IsDigit(r[i]))
    ensures r[0] == '0' ==> n == 0
  {
    if n < 10 then [DigitChar(n)] else NatText(n / 10) + [DigitChar(n % 10)]
  }

  /** The text of a JavaScript integer in a template literal: a minus sign then the digits of its magnitude. */
  function IntText(n: int): (r: string)
    ensures r != []
    ensures r[0] == '-' <==> n < 0
  {
    if n < 0 then "-" + NatText(-n) else NatText(n)
  }

  /** The value of a string of decimal digits. */
  function DigitsValue(s: string): nat
    requires forall i | 0 <= i < |s| :: IsDigit(s[i])
  {
    if s == [] then 0
    else
      var last := s[|s| - 1];
      assert IsDigit(last);
      DigitsValue(s[..|s| - 1]) * 10 + (last as int - '0' as int)
  }

  /** The digits of `n` read back give `n`. */
  lemma {:induction false} NatTextValue(n: nat)
    ensures DigitsValue(NatText(n)) == n
  {
    var r := NatText(n);
    if n >= 10 {
      NatTextValue(n / 10);
      assert r[..|r| - 1] == NatText(n / 10);
    }
  }

  /** Distinct integers render to distinct texts. */
  lemma {:induction false} IntTextInjective(a: int, b: int)
    requires IntText(a) == IntText(b)
    ensures a == b
  {
    var t := IntText(a);
    if a < 0 {
      assert b < 0;
      var m, n: nat := -a, -b;
      assert t == "-" + NatText(m) && t == "-" + NatText(n);
      assert NatText(m) == t[1..] == NatText(n);
      NatTextValue(m);
      NatTextValue(n);
    } else {
      assert b >= 0;
      NatTextValue(a);
      NatTextValue(b);
    }
  }
}
