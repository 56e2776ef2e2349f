/** Unsigned decimal printing ("%u") and the C library's `atoi`. */
module Decimal {
  import opened Wrappers

  predicate IsDigit(c: char) { '0' <= c <= '9' }

  function Digit(n: nat): (c: char)
    requires n < 10
    ensures IsDigit(c)
  {
    '0' + n as char
  }

  function DigitValue(c: char): (n: nat)
    requires IsDigit(c)
    ensures n < 10
  {
    (c - '0') as nat
  }

  function Print(n: nat): (s: string)
    ensures s != [] && forall i :: 0 <= i < |s| ==> IsDigit(s[i])
  {
    if n < 10 then [Digit(n)] else Print(n / 10) + [Digit(n % 10)]
  }

  /** The value of a digit string, most significant digit first. */
  function Value(s: string): nat
    requires forall i :: 0 <= i < |s| ==> IsDigit(s[i])
  {
    if s == [] then 0 else 10 * Value(s[..|s| - 1]) + DigitValue(s[|s| - 1])
  }

  lemma {:induction false} ValuePrint(n: nat)
    ensures Value(Print(n)) == n
  {
    var s := Print(n);
    if n < 10 {
      assert s[..|s| - 1] == [];
    } else {
      assert s[..|s| - 1] == Print(n / 10);
      ValuePrint(n / 10);
    }
  }

  /** The digits of a number are those of its tenth, followed by its last one. */
  lemma PrintAppends(n: nat, k: nat)
    requires k < 10
    ensures Print(10 * n + k) == (if n == 0 then "" else Print(n)) + ["0123456789"[k]]
  {
    assert Digit(k) == "0123456789"[k];
    if n > 0 { assert (10 * n + k) / 10 == n && (10 * n + k) % 10 == k; }
  }

  lemma PrintInjective(m: nat, n: nat)
    requires Print(m) == Print(n)
    ensures m == n
  {
    ValuePrint(m);
    ValuePrint(n);
  }

  // ----- atoi, section 7.22.1.2 of C11 -----

  const INT_MAX: nat := 0x7FFF_FFFF

  predicate IsCSpace(c: char) {
    c == ' ' || c == '\t' || c == '\n' || c == '\r' || c == '\U{000B}' || c == '\U{000C}'
  }

  function SkipSpaces(s: string): string {
    if s != [] && IsCSpace(s[0]) then SkipSpaces(s[1..]) else s
  }

  function DigitPrefix(s: string): (d: string)
    ensures d <= s && forall i :: 0 <= i < |d| ==> IsDigit(d[i])
    ensures |d| < |s| ==> !IsDigit(s[|d|])
  {
    if s != [] && IsDigit(s[0]) then [s[0]] + DigitPrefix(s[1..]) else []
  }

  /** White space, an optional sign, then digits; the rest is ignored. `None` when the value does
      not fit an `int`, where the standard leaves the behaviour undefined. */
  function Atoi(s: string): Option<int> {
    var t := SkipSpaces(s);
    var negative := t != [] && t[0] == '-';
    var body := if t != [] && (t[0] == '-' || t[0] == '+') then t[1..] else t;
    var magnitude: int := Value(DigitPrefix(body));
    if magnitude > (if negative then INT_MAX + 1 else INT_MAX) then None
    else Some(if negative then -magnitude else magnitude)
  }

  lemma {:induction false} SkipAll(pre: string, s: string)
    requires forall i :: 0 <= i < |pre| ==> IsCSpace(pre[i])
    requires s != "" ==> !IsCSpace(s[0])
    ensures SkipSpaces(pre + s) == s
  {
    if pre == "" {
      assert pre + s == s;
    } else {
      assert (pre + s)[1..] == pre[1..] + s;
      SkipAll(pre[1..], s);
    }
  }

  lemma {:induction false} DigitPrefixEnds(digits: string, rest: string)
    requires forall i :: 0 <= i < |digits| ==> IsDigit(digits[i])
    requires rest != "" ==> !IsDigit(rest[0])
    ensures DigitPrefix(digits + rest) == digits
  {
    if digits == "" {
      assert digits + rest == rest;
    } else {
      assert (digits + rest)[1..] == digits[1..] + rest;
      DigitPrefixEnds(digits[1..], rest);
    }
  }

  lemma {:induction false} ValueZeros(zeros: string, s: string)
    requires forall i :: 0 <= i < |zeros| ==> zeros[i] == '0'
    requires forall i :: 0 <= i < |s| ==> IsDigit(s[i])
    ensures forall i :: 0 <= i < |zeros + s| ==> IsDigit((zeros + s)[i])
    ensures Value(zeros + s) == Value(s)
  {
    var all := zeros + s;
    var n := |all| - 1;
    if s != "" {
      assert all[..n] == zeros + s[..|s| - 1];
      ValueZeros(zeros, s[..|s| - 1]);
    } else if zeros != "" {
      assert all[..n] == zeros[..|zeros| - 1] + s;
      ValueZeros(zeros[..|zeros| - 1], s);
    } else {
      assert all == s;
    }
  }

  lemma AtoiParts(pre: string, sign: string, digits: string, rest: string)
    requires forall i :: 0 <= i < |pre| ==> IsCSpace(pre[i])
    requires sign == "" || sign == "+" || sign == "-"
    requires forall i :: 0 <= i < |digits| ==> IsDigit(digits[i])
    requires rest != "" ==> !IsDigit(rest[0])
    requires sign == "" && digits == "" && rest != "" ==> !IsCSpace(rest[0]) && rest[0] != '+' && rest[0] != '-'
    ensures Atoi(pre + (sign + (digits + rest))) ==
            if sign == "-" then (if Value(digits) <= INT_MAX + 1 then Some(-(Value(digits) as int)) else None)
            else if Value(digits) <= INT_MAX then Some(Value(digits)) else None
  {
    hide Value, SkipSpaces, DigitPrefix;
    var body := digits + rest;
    var t := sign + body;
    SignStarts(sign, digits, rest);
    SkipAll(pre, t);
    DigitPrefixEnds(digits, rest);
  }

  /** The sign, if any, is the first thing there is. */
  lemma SignStarts(sign: string, digits: string, rest: string)
    requires sign == "" || sign == "+" || sign == "-"
    requires forall i :: 0 <= i < |digits| ==> IsDigit(digits[i])
    requires sign == "" && digits == "" && rest != "" ==> !IsCSpace(rest[0]) && rest[0] != '+' && rest[0] != '-'
    ensures var body := digits + rest;
            var t := sign + body;
            && (t != "" ==> !IsCSpace(t[0]))
            && (sign == "-" <==> t != "" && t[0] == '-')
            && (sign == "" ==> t == body && (t == "" || (t[0] != '+' && t[0] != '-')))
            && (sign != "" ==> t != "" && (t[0] == '+' || t[0] == '-') && t[1..] == body)
  {
    var body := digits + rest;
    if digits != "" { assert body[0] == digits[0]; } else { assert body == rest; }
  }

  /** What `atoi` makes of white space, a sign, leading zeros, a number and whatever follows it. */
  lemma AtoiReads(pre: string, sign: string, zeros: string, n: nat, rest: string)
    requires forall i :: 0 <= i < |pre| ==> pre[i] in " \t\n\r\U{000B}\U{000C}"
    requires sign == "" || sign == "+" || sign == "-"
    requires forall i :: 0 <= i < |zeros| ==> zeros[i] == '0'
    requires rest != "" ==> rest[0] !in "0123456789"
    ensures Atoi(pre + (sign + (zeros + Print(n) + rest))) ==
            if sign == "-" then (if n <= 2147483648 then Some(-(n as int)) else None)
            else if n <= 2147483647 then Some(n) else None
  {
    hide Value, Print, Atoi;
    if rest != "" { DigitListed(rest[0]); }
    ValueZeros(zeros, Print(n));
    AtoiParts(pre, sign, zeros + Print(n), rest);
    ValuePrint(n);
  }

  /** Without a digit after the white space and the sign the value is zero. */
  lemma AtoiNothing(pre: string, sign: string, rest: string)
    requires forall i :: 0 <= i < |pre| ==> pre[i] in " \t\n\r\U{000B}\U{000C}"
    requires sign == "" || sign == "+" || sign == "-"
    requires rest != "" ==> rest[0] !in "0123456789"
    requires sign == "" && rest != "" ==> rest[0] !in " \t\n\r\U{000B}\U{000C}+-"
    ensures Atoi(pre + (sign + rest)) == Some(0)
  {
    hide Atoi;
    if rest != "" { DigitListed(rest[0]); }
    AtoiParts(pre, sign, "", rest);
    assert "" + rest == rest;
  }

  lemma DigitListed(c: char)
    ensures c in "0123456789" <==> IsDigit(c)
  {
    if IsDigit(c) {
      var k := (c - '0') as nat;
      assert "0123456789"[k] == c;
    }
  }

  /** `atoi` reads back a printed number exactly when it fits an `int`. */
  lemma AtoiPrint(n: nat)
    ensures Atoi(Print(n)) == if n <= INT_MAX then Some(n) else None
  {
    hide Atoi;
    AtoiReads("", "", "", n, "");
    assert "" + ("" + ("" + Print(n) + "")) == Print(n);
  }

  lemma AtoiNegative(n: nat)
    ensures Atoi("-" + Print(n)) == if n <= INT_MAX + 1 then Some(-(n as int)) else None
  {
    hide Atoi;
    AtoiReads("", "-", "", n, "");
    assert "" + ("-" + ("" + Print(n) + "")) == "-" + Print(n);
  }
}
