/** The fixed-length alphabet checks `vfyhex` and `vfybase32`. Each compares
    the string's length with the expected size first, then scans the characters
    and stops at the first one outside its alphabet. Both return the C truth
    values 1 and 0 and change nothing. */
module Validators {
  import opened CStrings

  /** Lowercase hexadecimal digit: `0-9` or `a-f`. */
  predicate IsHexDigit(c: char) {
    ('0' <= c <= '9') || ('a' <= c <= 'f')
  }

  /** Character of the lowercase base-32 alphabet: `a-z` or `2-7`. */
  predicate IsBase32Char(c: char) {
    ('a' <= c <= 'z') || ('2' <= c <= '7')
  }

  /** `s` is exactly `sz` lowercase hexadecimal digits. A negative `sz`
      matches no length. */
  predicate IsHex(sz: int, s: string) {
    |s| == sz && forall i :: 0 <= i < |s| ==> IsHexDigit(s[i])
  }

  /** `s` is exactly `sz` characters of the lowercase base-32 alphabet. */
  predicate IsBase32(sz: int, s: string) {
    |s| == sz && forall i :: 0 <= i < |s| ==> IsBase32Char(s[i])
  }

  /** `vfyhex`: 1 when `s` has `sz` characters, all lowercase hex digits;
      0 otherwise, and 0 on a length mismatch before any character is read. */
  method VfyHex(sz: int, s: CStr) returns (r: int)
    ensures r == 1 || r == 0
    ensures r == 1 <==> IsHex(sz, s)
    ensures |s| != sz ==> r == 0
  {
    if |s| != sz {
      return 0;
    }
    var p := 0;
    while p < |s|
      invariant 0 <= p <= |s|
      invariant forall i :: 0 <= i < p ==> IsHexDigit(s[i])
    {
      if !(('0' <= s[p] <= '9') || ('a' <= s[p] <= 'f')) {
        return 0;
      }
      p := p + 1;
    }
    return 1;
  }

  /** `vfybase32`: 1 when `s` has `sz` characters, all in `a-z` or `2-7`;
      0 otherwise, and 0 on a length mismatch before any character is read. */
  method VfyBase32(sz: int, s: CStr) returns (r: int)
    ensures r == 1 || r == 0
    ensures r == 1 <==> IsBase32(sz, s)
    ensures |s| != sz ==> r == 0
  {
    if |s| != sz {
      return 0;
    }
    var p := 0;
    while p < |s|
      invariant 0 <= p <= |s|
      invariant forall i :: 0 <= i < p ==> IsBase32Char(s[i])
    {
      if !(('a' <= s[p] <= 'z') || ('2' <= s[p] <= '7')) {
        return 0;
      }
      p := p + 1;
    }
    return 1;
  }

  /** The value of a hexadecimal digit, 0 to 15. */
  function HexValue(c: char): (v: nat)
    requires IsHexDigit(c)
    ensures v < 16
  {
    if c <= '9' then c as int - '0' as int else 10 + (c as int - 'a' as int)
  }

  /** The lowercase hexadecimal digit for a value 0 to 15. */
  function HexSymbol(v: nat): (c: char)
    requires v < 16
    ensures IsHexDigit(c)
  {
    if v < 10 then ('0' as int + v) as char else ('a' as int + v - 10) as char
  }

  /** The hex alphabet is exactly the 16 digit symbols: every value has one
      symbol and every accepted character is the symbol of its value. */
  lemma HexAlphabetIsSixteenSymbols(c: char, v: nat)
    requires v < 16
    ensures HexValue(HexSymbol(v)) == v
    ensures IsHexDigit(c) ==> HexSymbol(HexValue(c)) == c
  {
  }

  /** The value of a character of the base-32 alphabet (section 6 of
      RFC 4648, lowercase): `a`..`z` are 0..25, `2`..`7` are 26..31. */
  function Base32Value(c: char): (v: nat)
    requires IsBase32Char(c)
    ensures v < 32
  {
    if 'a' <= c then c as int - 'a' as int else 26 + (c as int - '2' as int)
  }

  /** The lowercase symbol of a value 0 to 31 in the alphabet of section 6 of
      RFC 4648. */
  function Base32Symbol(v: nat): (c: char)
    requires v < 32
    ensures IsBase32Char(c)
  {
    if v < 26 then ('a' as int + v) as char else ('2' as int + v - 26) as char
  }

  /** The characters `vfybase32` accepts are exactly the 32 symbols of the
      RFC 4648 base-32 alphabet, lowercased, without the padding `=`. */
  lemma Base32AlphabetIsRfc4648(c: char, v: nat)
    requires v < 32
    ensures Base32Value(Base32Symbol(v)) == v
    ensures IsBase32Char(c) ==> Base32Symbol(Base32Value(c)) == c
    ensures !IsBase32Char('=')
  {
  }

  /** Uppercase letters are rejected by both checks, and so are the digits
      `0`, `1`, `8` and `9` by the base-32 check. */
  lemma RejectedCharacters(sz: int, s: string, i: int)
    requires 0 <= i < |s|
    ensures 'A' <= s[i] <= 'Z' ==> !IsHex(sz, s) && !IsBase32(sz, s)
    ensures s[i] in "0189" ==> !IsBase32(sz, s)
  {
  }

  /** Both checks accept the empty string for size 0 and reject it for any
      other size. */
  lemma EmptyString(sz: int)
    ensures IsHex(sz, "") <==> sz == 0
    ensures IsBase32(sz, "") <==> sz == 0
  {
  }

  /** Sample inputs: lowercase hex of the right length passes; uppercase or a
      wrong length fails; a `1` is not a base-32 character. */
  lemma SampleInputs()
    ensures IsHex(6, "a1b2c3") && !IsHex(6, "A1B2C3") && !IsHex(5, "a1b2c3")
    ensures IsBase32(8, "abcdefgh") && !IsBase32(8, "abcdefg1") && !IsBase32(8, "ABCDEFGH")
  {
    assert "A1B2C3"[0] == 'A';
    assert "abcdefg1"[7] == '1';
    assert "ABCDEFGH"[0] == 'A';
  }
}
