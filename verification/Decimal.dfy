/**
 * Canonical decimal strings for unsigned amounts: Rust's `to_string` on u64/u128 and
 * `parse_u64_string` / `parse_u128_string` of coordinator/src/store.rs.
 */
module Decimals {
  import opened Common

  predicate IsDigit(c: char) { '0' <= c <= '9' }

  function DigitOf(c: char): (d: nat)
    requires IsDigit(c)
    ensures d < 10
  {
    c as int - '0' as int
  }

  function CharOf(d: nat): (c: char)
    requires d < 10
    ensures IsDigit(c) && DigitOf(c) == d
  {
    (d + '0' as int) as char
  }

  predicate AllDigits(s: string) { forall k | 0 <= k < |s| :: IsDigit(s[k]) }

  function ValueOf(s: string): (n: nat)
    requires AllDigits(s)
    decreases |s|
  {
    if s == "" then 0 else 10 * ValueOf(s[..|s|-1]) + DigitOf(s[|s|-1])
  }

  // `u128::to_string`
  function Print(n: nat): (s: string)
    ensures s != "" && AllDigits(s) && ValueOf(s) == n && (s == "0" || s[0] != '0')
    decreases n
  {
    if n < 10 then
      assert [CharOf(n)][..0] == "";
      [CharOf(n)]
    else
      var front := Print(n / 10);
      var s := front + [CharOf(n % 10)];
      assert s[..|s|-1] == front;
      s
  }

  predicate IsSpace(c: char) { c in {' ', '\t', '\n', '\r'} }

  // `parse_unsigned_string`: no sign, no surrounding blanks, no leading zero.
  predicate CanonicalShape(s: string) {
    && s != "" && s[0] != '+'
    && !IsSpace(s[0]) && !IsSpace(s[|s|-1])
    && (s == "0" || s[0] != '0')
  }

  // `parse_unsigned_string(value).and_then(|v| v.parse().ok())` at a given width
  function Parse(s: string, max: nat): (r: Option<nat>) {
    if CanonicalShape(s) && AllDigits(s) && ValueOf(s) <= max then Some(ValueOf(s)) else None
  }

  lemma {:induction false} CanonicalIsPrinted(s: string)
    requires s != "" && AllDigits(s) && (s == "0" || s[0] != '0')
    ensures Print(ValueOf(s)) == s
    decreases |s|
  {
    var front := s[..|s|-1];
    if front == "" {
      assert s == [s[0]];
    } else {
      CanonicalIsPrinted(front);
      assert ValueOf(front) > 0 by { PositiveLead(front); }
      assert s == front + [s[|s|-1]];
    }
  }

  lemma {:induction false} PositiveLead(s: string)
    requires s != "" && AllDigits(s) && s[0] != '0'
    ensures ValueOf(s) > 0
    decreases |s|
  {
    if |s| > 1 {
      PositiveLead(s[..|s|-1]);
    } else {
      assert s[..0] == "";
    }
  }

  /** Printing then parsing is the identity on amounts that fit. */
  lemma PrintParse(n: nat, max: nat)
    requires n <= max
    ensures Parse(Print(n), max) == Some(n)
  {
    var s := Print(n);
    assert IsDigit(s[0]) && IsDigit(s[|s|-1]);
  }

  /** Parsing accepts exactly the printed forms, so no amount has two encodings. */
  lemma ParseAcceptsExactly(s: string, max: nat)
    ensures Parse(s, max).Some? <==> exists n: nat :: n <= max && s == Print(n)
    ensures Parse(s, max).Some? ==> s == Print(Parse(s, max).value)
  {
    if Parse(s, max).Some? {
      CanonicalIsPrinted(s);
    }
    if n: nat :| n <= max && s == Print(n) {
      PrintParse(n, max);
    }
  }
}
