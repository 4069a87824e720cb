/**
 * UUIDs and their text form. Python's `str(uuid)` prints the 32 hexadecimal
 * digits of the 128-bit value in lower case, grouped 8-4-4-4-12 with hyphens;
 * the database driver turns such a string back into the UUID it names.
 */
module Uuids {
  import opened Wrappers

  type Nibble = n: int | 0 <= n < 16

  /** A UUID as its 32 hexadecimal digits, most significant first. */
  type Uuid = s: seq<Nibble> | |s| == 32 witness seq(32, _ => 0)

  /** The text positions that hold a hyphen in the 8-4-4-4-12 layout. */
  predicate IsHyphenAt(i: int) {
    i == 8 || i == 13 || i == 18 || i == 23
  }

  /** Text position of hex digit `j`. */
  function CharPos(j: int): (i: int)
    requires 0 <= j < 32
    ensures 0 <= i < 36 && !IsHyphenAt(i)
  {
    if j < 8 then j else if j < 12 then j + 1 else if j < 16 then j + 2 else if j < 20 then j + 3 else j + 4
  }

  /** Hex digit index shown at text position `i` (the inverse of CharPos). */
  function DigitIndex(i: int): (j: int)
    requires 0 <= i < 36 && !IsHyphenAt(i)
    ensures 0 <= j < 32 && CharPos(j) == i
  {
    if i < 8 then i else if i < 13 then i - 1 else if i < 18 then i - 2 else if i < 23 then i - 3 else i - 4
  }

  function HexDigit(n: Nibble): (c: char)
    ensures !('A' <= c <= 'F')
  {
    if n < 10 then ('0' as int + n) as char else ('a' as int + n - 10) as char
  }

  /** The value of one hex digit, in either case; None for any other character. */
  function HexValue(c: char): (r: Option<Nibble>)
    ensures r.Some? <==> ('0' <= c <= '9' || 'a' <= c <= 'f' || 'A' <= c <= 'F')
  {
    if '0' <= c <= '9' then Some(c as int - '0' as int)
    else if 'a' <= c <= 'f' then Some(c as int - 'a' as int + 10)
    else if 'A' <= c <= 'F' then Some(c as int - 'A' as int + 10)
    else None
  }

  /** `str(u)`: 36 characters, lower-case digits in the 8-4-4-4-12 layout. */
  function UuidString(u: Uuid): (s: string)
    ensures |s| == 36
  {
    seq(36, i requires 0 <= i < 36 => if IsHyphenAt(i) then '-' else HexDigit(u[DigitIndex(i)]))
  }

  /** Reading a printed digit gives back its value; printing a lower-case digit's value gives the digit. */
  lemma HexRoundTrip(n: Nibble, c: char)
    ensures HexValue(HexDigit(n)) == Some(n)
    ensures HexValue(c).Some? && !('A' <= c <= 'F') ==> HexDigit(HexValue(c).value) == c
  {
  }

  predicate WellFormed(s: string) {
    && |s| == 36
    && forall i :: 0 <= i < 36 ==> if IsHyphenAt(i) then s[i] == '-' else HexValue(s[i]).Some?
  }

  predicate NoUpperHex(s: string) {
    forall i :: 0 <= i < |s| ==> !('A' <= s[i] <= 'F')
  }

  /** The UUID a hyphenated hex string names, or None when the string is not one. */
  function ParseUuid(s: string): (r: Option<Uuid>)
    ensures r.Some? <==> WellFormed(s)
  {
    if WellFormed(s) then
      Some(seq(32, j requires 0 <= j < 32 => HexValue(s[CharPos(j)]).value))
    else None
  }

  /** Parsing the text form gives back the UUID. */
  lemma {:induction false} ParseString(u: Uuid)
    ensures ParseUuid(UuidString(u)) == Some(u)
  {
    var s := UuidString(u);
    forall i | 0 <= i < 36
      ensures if IsHyphenAt(i) then s[i] == '-' else HexValue(s[i]).Some?
    {
      if !IsHyphenAt(i) {
        HexRoundTrip(u[DigitIndex(i)], s[i]);
      }
    }
    var v := ParseUuid(s).value;
    forall j | 0 <= j < 32 ensures v[j] == u[j] {
      assert DigitIndex(CharPos(j)) == j;
      HexRoundTrip(u[j], s[CharPos(j)]);
    }
    assert v == u;
  }

  /** A string parses to `u` and has no upper-case digit iff it is exactly `str(u)`. */
  lemma {:induction false} ParseCanonical(s: string, u: Uuid)
    ensures (ParseUuid(s) == Some(u) && NoUpperHex(s)) <==> s == UuidString(u)
  {
    if s == UuidString(u) {
      ParseString(u);
    }
    if ParseUuid(s) == Some(u) && NoUpperHex(s) {
      forall i | 0 <= i < 36 ensures s[i] == UuidString(u)[i] {
        if !IsHyphenAt(i) {
          assert CharPos(DigitIndex(i)) == i;
          HexRoundTrip(u[DigitIndex(i)], s[i]);
        }
      }
    }
  }

  /** Distinct UUIDs print differently. */
  lemma UuidStringInjective(u: Uuid, w: Uuid)
    requires UuidString(u) == UuidString(w)
    ensures u == w
  {
    ParseString(u);
    ParseString(w);
  }
}
