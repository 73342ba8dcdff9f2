/** The one canonical form of a unicast device MAC (scripts/routerkit_devices.py). */
module Mac {
  import opened Wrappers
  import opened Text

  predicate IsHex(c: char) {
    IsDigit(c) || 'a' <= c <= 'f' || 'A' <= c <= 'F'
  }

  function LowerChar(c: char): char {
    if 'A' <= c <= 'F' then (c as int + 32) as char else c
  }

  function HexValue(c: char): (v: nat)
    requires IsHex(c)
    ensures v < 16
  {
    if IsDigit(c) then c as int - '0' as int else LowerChar(c) as int - 'a' as int + 10
  }

  predicate TwelveHex(c: string) {
    |c| == 12 && forall i :: 0 <= i < 12 ==> IsHex(c[i])
  }

  /** Where hex digit i stands in `aa:bb:cc:dd:ee:ff`. */
  function DigitAt(i: nat): nat {
    i / 2 * 3 + i % 2
  }

  predicate Separated(text: string, separator: char)
  {
    && |text| == 17
    && text[2] == separator && text[5] == separator && text[8] == separator
    && text[11] == separator && text[14] == separator
    && forall i :: 0 <= i < 12 ==> IsHex(text[DigitAt(i)])
  }

  /** Twelve plain hex digits, or six octets joined by one repeated separator. */
  function Compact(text: string): (r: Option<string>)
    ensures r.Some? ==> TwelveHex(r.value)
  {
    if TwelveHex(text) then Some(text)
    else if Separated(text, '.') || Separated(text, ':') || Separated(text, '-')
    then Some(seq(12, i requires 0 <= i < 12 && |text| == 17 => text[DigitAt(i)]))
    else None
  }

  /** All zero, all ones, or a group address cannot name one device. */
  predicate Unicast(compact: string)
    requires TwelveHex(compact)
  {
    && (exists i :: 0 <= i < 12 && HexValue(compact[i]) != 0)
    && (exists i :: 0 <= i < 12 && HexValue(compact[i]) != 15)
    && HexValue(compact[1]) % 2 == 0
  }

  function Lower(compact: string): (r: string)
    requires |compact| == 12
    ensures |r| == 12 && forall i :: 0 <= i < 12 ==> r[i] == LowerChar(compact[i])
  {
    seq(12, i requires 0 <= i < 12 => LowerChar(compact[i]))
  }

  function Join(c: string): (m: string)
    requires |c| == 12
    ensures |m| == 17
  {
    [c[0], c[1], ':', c[2], c[3], ':', c[4], c[5], ':', c[6], c[7], ':', c[8], c[9], ':', c[10], c[11]]
  }

  function NormalizeMac(value: string): (r: Option<string>)
    ensures r.Some? ==> |r.value| == 17
  {
    if exists i :: 0 <= i < |value| && IsControl(value[i]) then None
    else
      var compact := Compact(Strip(value));
      if compact.None? || !Unicast(compact.value) then None else Some(Join(Lower(compact.value)))
  }

  lemma {:induction false} StripKeepsTrimmedText(s: string)
    requires s != [] && !IsSpace(s[0]) && !IsSpace(s[|s| - 1])
    ensures Strip(s) == s
  {
  }

  lemma {:induction false} LowerKeepsHex(c: char)
    requires IsHex(c)
    ensures IsHex(LowerChar(c)) && HexValue(LowerChar(c)) == HexValue(c)
    ensures !IsSpace(LowerChar(c)) && !IsControl(LowerChar(c))
    ensures LowerChar(LowerChar(c)) == LowerChar(c)
  {
  }

  lemma {:induction false} JoinIsSeparated(c: string)
    requires TwelveHex(c)
    ensures Separated(Join(c), ':') && Compact(Join(c)) == Some(c)
    ensures forall k :: 0 <= k < 17 ==> Join(c)[k] == ':' || IsHex(Join(c)[k])
  {
    var m := Join(c);
    assert m[DigitAt(0)] == c[0] && m[DigitAt(1)] == c[1] && m[DigitAt(2)] == c[2] && m[DigitAt(3)] == c[3];
    assert m[DigitAt(4)] == c[4] && m[DigitAt(5)] == c[5] && m[DigitAt(6)] == c[6] && m[DigitAt(7)] == c[7];
    assert m[DigitAt(8)] == c[8] && m[DigitAt(9)] == c[9] && m[DigitAt(10)] == c[10] && m[DigitAt(11)] == c[11];
    forall i | 0 <= i < 12 ensures m[DigitAt(i)] == c[i] {
    }
    assert Compact(m).value == c;
  }

  lemma {:induction false} LoweredUnicast(c: string)
    requires TwelveHex(c) && Unicast(c)
    ensures TwelveHex(Lower(c)) && Unicast(Lower(c)) && Lower(Lower(c)) == Lower(c)
  {
    forall i | 0 <= i < 12 ensures IsHex(Lower(c)[i]) && HexValue(Lower(c)[i]) == HexValue(c[i]) {
      LowerKeepsHex(c[i]);
    }
    forall i | 0 <= i < 12 ensures Lower(Lower(c))[i] == Lower(c)[i] {
      LowerKeepsHex(c[i]);
    }
  }

  /** Lower-case hex. */
  predicate IsLowerHex(c: char) {
    IsDigit(c) || 'a' <= c <= 'f'
  }

  /** A trusted identity with the digits of the given text: six lower-case octets joined by colons, neither all zeros
      nor all ones, the first one even. */
  ghost predicate Trusted(m: string, given: string)
    requires TwelveHex(given)
  {
    && Separated(m, ':')
    && (forall i :: 0 <= i < 12 ==> IsLowerHex(m[DigitAt(i)]) && HexValue(m[DigitAt(i)]) == HexValue(given[i]))
    && (exists i :: 0 <= i < 12 && HexValue(m[DigitAt(i)]) != 0)
    && (exists i :: 0 <= i < 12 && HexValue(m[DigitAt(i)]) != 15)
    && HexValue(m[DigitAt(1)]) % 2 == 0
  }

  lemma {:induction false} JoinedDigits(c: string)
    requires TwelveHex(c)
    ensures forall i :: 0 <= i < 12 ==> DigitAt(i) < 17 && Join(c)[DigitAt(i)] == c[i]
  {
    JoinIsSeparated(c);
    forall i | 0 <= i < 12 ensures DigitAt(i) < 17 && Join(c)[DigitAt(i)] == c[i] {
      assert Compact(Join(c)).value[i] == Join(c)[DigitAt(i)];
    }
  }

  lemma {:induction false} LoweredIsTrusted(given: string)
    requires TwelveHex(given) && Unicast(given)
    ensures Trusted(Join(Lower(given)), given)
  {
    var c := Lower(given);
    LoweredUnicast(given);
    JoinIsSeparated(c);
    JoinedDigits(c);
    forall i | 0 <= i < 12 ensures IsLowerHex(c[i]) && HexValue(c[i]) == HexValue(given[i]) {
      LowerKeepsHex(given[i]);
    }
    var m := Join(c);
    var j :| 0 <= j < 12 && HexValue(c[j]) != 0;
    var k :| 0 <= k < 12 && HexValue(c[k]) != 15;
    assert HexValue(m[DigitAt(j)]) != 0 && HexValue(m[DigitAt(k)]) != 15;
    assert m[DigitAt(1)] == c[1];
  }

  /** What is accepted comes out as a trusted identity with the digits of the trimmed text. */
  lemma {:induction false} NormalizedMacIsTrusted(value: string)
    requires NormalizeMac(value).Some?
    ensures Compact(Strip(value)).Some? && Trusted(NormalizeMac(value).value, Compact(Strip(value)).value)
  {
    LoweredIsTrusted(Compact(Strip(value)).value);
  }

  /** Normalising an already normalised identity changes nothing. */
  lemma {:induction false} NormalizeMacIsIdempotent(value: string)
    requires NormalizeMac(value).Some?
    ensures NormalizeMac(NormalizeMac(value).value) == NormalizeMac(value)
  {
    var c := Lower(Compact(Strip(value)).value);
    LoweredUnicast(Compact(Strip(value)).value);
    var m := Join(c);
    JoinIsSeparated(c);
    StripKeepsTrimmedText(m);
  }
}
