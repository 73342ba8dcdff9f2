/** Results, decimal text, trimming and generic ordering shared by every component. */
module Wrappers {
  datatype Option<+T> = None | Some(value: T) {
    function GetOr(default: T): T {
      if Some? then value else default
    }
  }

  datatype Result<+T, +E> = Ok(value: T) | Err(error: E)
}

/** The text operations the scripts apply to names, numbers and fields. */
module Text {
  import opened Wrappers

  predicate IsDigit(c: char) {
    '0' <= c <= '9'
  }

  predicate AllDigits(s: string) {
    forall i :: 0 <= i < |s| ==> IsDigit(s[i])
  }

  function DigitChar(d: nat): (c: char)
    requires d < 10
    ensures IsDigit(c) && c as int - '0' as int == d
  {
    ('0' as int + d) as char
  }

  /** The `%d` rendering of a non-negative integer. */
  function Decimal(n: nat): (s: string)
    ensures s != [] && AllDigits(s)
  {
    if n < 10 then [DigitChar(n)] else Decimal(n / 10) + [DigitChar(n % 10)]
  }

  /** `int(text)` on a run of ASCII digits; leading zeros are allowed. */
  function ParseDecimal(s: string): nat
    requires AllDigits(s)
  {
    if s == [] then 0
    else 10 * ParseDecimal(s[..|s| - 1]) + (s[|s| - 1] as int - '0' as int)
  }

  lemma {:induction false} ParseInvertsDecimal(n: nat)
    ensures ParseDecimal(Decimal(n)) == n
  {
    if n >= 10 {
      var s := Decimal(n);
      assert s[..|s| - 1] == Decimal(n / 10);
      ParseInvertsDecimal(n / 10);
    } else {
      var s := Decimal(n);
      assert s[..|s| - 1] == [];
    }
  }

  lemma {:induction false} DecimalInjective(m: nat, n: nat)
    requires Decimal(m) == Decimal(n)
    ensures m == n
  {
    ParseInvertsDecimal(m);
    ParseInvertsDecimal(n);
  }

  /** `%d` of any integer. */
  function IntText(n: int): string {
    if n < 0 then "-" + Decimal(-n) else Decimal(n)
  }

  lemma {:induction false} SignShows(m: int, n: int)
    requires m < 0 <= n
    ensures IntText(m) != IntText(n)
  {
    assert IntText(m)[0] == '-' && IsDigit(IntText(n)[0]);
  }

  lemma {:induction false} IntTextInjective(m: int, n: int)
    requires IntText(m) == IntText(n)
    ensures m == n
  {
    if m < 0 && n < 0 {
      assert IntText(m)[1..] == Decimal(-m) && IntText(n)[1..] == Decimal(-n);
      DecimalInjective(-m, -n);
    } else if m >= 0 && n >= 0 {
      DecimalInjective(m, n);
    } else if m < 0 {
      SignShows(m, n);
    } else {
      SignShows(n, m);
    }
  }

  /** A common prefix followed by a decimal keeps distinct numbers apart. */
  lemma {:induction false} PrefixedIntTextInjective(prefix: string, m: int, n: int)
    requires prefix + IntText(m) == prefix + IntText(n)
    ensures m == n
  {
    assert (prefix + IntText(m))[|prefix|..] == IntText(m);
    assert (prefix + IntText(n))[|prefix|..] == IntText(n);
    IntTextInjective(m, n);
  }

  /** The control characters refused by every text field. */
  predicate IsControl(c: char) {
    c <= '\U{1f}' || c == '\U{7f}'
  }

  /** What `str.strip` removes once control characters have been refused. */
  predicate IsSpace(c: char) {
    c == ' ' || c == '\U{85}' || c == '\U{a0}' || c == '\U{1680}' || '\U{2000}' <= c <= '\U{200a}'
    || c == '\U{2028}' || c == '\U{2029}' || c == '\U{202f}' || c == '\U{205f}' || c == '\U{3000}'
  }

  function StripLeft(s: string): (r: string)
    ensures |r| <= |s| && r == s[|s| - |r|..]
    ensures r == [] || !IsSpace(r[0])
  {
    if s != [] && IsSpace(s[0]) then StripLeft(s[1..]) else s
  }

  function StripRight(s: string): (r: string)
    ensures |r| <= |s| && r == s[..|r|]
    ensures r == [] || !IsSpace(r[|r| - 1])
  {
    if s != [] && IsSpace(s[|s| - 1]) then StripRight(s[..|s| - 1]) else s
  }

  function Strip(s: string): string {
    StripRight(StripLeft(s))
  }

  lemma {:induction false} StripIsIdempotent(s: string)
    ensures Strip(Strip(s)) == Strip(s)
    ensures (forall i :: 0 <= i < |s| ==> !IsControl(s[i])) ==>
              forall i :: 0 <= i < |Strip(s)| ==> !IsControl(Strip(s)[i])
  {
    var l := StripLeft(s);
    var r := StripRight(l);
    assert r != [] ==> r[0] == l[0];
  }

  const MAX_TEXT := 128

  /** A required text field: no control character, trimmed, non-empty, bounded. */
  function CleanText(value: string): Option<string> {
    if exists i :: 0 <= i < |value| && IsControl(value[i]) then None
    else
      var cleaned := Strip(value);
      if cleaned == [] || |cleaned| > MAX_TEXT then None else Some(cleaned)
  }

  lemma {:induction false} CleanTextIsIdempotent(value: string)
    requires CleanText(value).Some?
    ensures CleanText(CleanText(value).value) == CleanText(value)
  {
    StripIsIdempotent(value);
  }
}
