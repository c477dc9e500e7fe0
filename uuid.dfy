/** UUIDs as 32 hexadecimal digits (128 bits), with the canonical text form
    8-4-4-4-12 that `UUID.toString` writes and the hex pattern the services
    match before calling `UUID.fromString`. */
module Uuids {

  type Nibble = x: int | 0 <= x < 16

  datatype UuidBits = UuidBits(nibbles: seq<Nibble>)

  /** A UUID: exactly 32 hex digits, most significant first. */
  type Uuid = u: UuidBits | |u.nibbles| == 32 witness Nil

  /** The all-zero UUID. */
  const Nil: UuidBits := UuidBits([0, 0, 0, 0, 0, 0, 0, 0, 0, 0, 0, 0, 0, 0, 0, 0, 0, 0, 0, 0, 0, 0, 0, 0, 0, 0, 0, 0, 0, 0, 0, 0])

  predicate IsHexDigit(c: char) {
    ('0' <= c <= '9') || ('a' <= c <= 'f') || ('A' <= c <= 'F')
  }

  function HexValue(c: char): Nibble
    requires IsHexDigit(c)
  {
    if '0' <= c <= '9' then c as int - '0' as int
    else if 'a' <= c <= 'f' then c as int - 'a' as int + 10
    else c as int - 'A' as int + 10
  }

  function LowerHexDigit(v: Nibble): (c: char)
    ensures IsHexDigit(c) && HexValue(c) == v
    ensures !('A' <= c <= 'F')
  {
    if v < 10 then ('0' as int + v) as char else ('a' as int + v - 10) as char
  }

  function UpperHexDigit(v: Nibble): (c: char)
    ensures IsHexDigit(c) && HexValue(c) == v
    ensures !('a' <= c <= 'f')
  {
    if v < 10 then ('0' as int + v) as char else ('A' as int + v - 10) as char
  }

  /** Positions of the four dashes in the 36-character text form. */
  predicate IsDashPosition(i: int) {
    i == 8 || i == 13 || i == 18 || i == 23
  }

  /** The text position of hex digit k (0 <= k < 32). */
  function CharIndex(k: int): (i: int)
    requires 0 <= k < 32
    ensures 0 <= i < 36 && !IsDashPosition(i) && NibbleIndex(i) == k
  {
    if k < 8 then k else if k < 12 then k + 1 else if k < 16 then k + 2 else if k < 20 then k + 3 else k + 4
  }

  /** The hex digit held at text position i (a non-dash position). */
  function NibbleIndex(i: int): (k: int)
    requires 0 <= i < 36 && !IsDashPosition(i)
    ensures 0 <= k < 32
  {
    if i < 8 then i else if i < 13 then i - 1 else if i < 18 then i - 2 else if i < 23 then i - 3 else i - 4
  }

  /** The hex shape `[a-fA-F\d]{8}(?:-[a-fA-F\d]{4}){3}-[a-fA-F\d]{12}`:
      36 characters, dashes at 8, 13, 18 and 23, hex digits of either case
      everywhere else. */
  predicate IsUuidText(s: string) {
    |s| == 36 &&
    forall i :: 0 <= i < 36 ==> if IsDashPosition(i) then s[i] == '-' else IsHexDigit(s[i])
  }

  /** `UUID.fromString` on text of the hex shape. */
  function ParseUuid(s: string): (u: Uuid)
    requires IsUuidText(s)
    ensures forall i :: 0 <= i < 36 && !IsDashPosition(i) ==> u.nibbles[NibbleIndex(i)] == HexValue(s[i])
  {
    UuidBits(seq(32, k requires 0 <= k < 32 => HexValue(s[CharIndex(k)])))
  }

  /** `UUID.toString`: the canonical lower-case text form. */
  function UuidToString(u: Uuid): (s: string)
    ensures |s| == 36
  {
    seq(36, i requires 0 <= i < 36 => if IsDashPosition(i) then '-' else LowerHexDigit(u.nibbles[NibbleIndex(i)]))
  }

  /** The same UUID written with upper-case hex digits. */
  function UuidToUpperString(u: Uuid): (s: string)
    ensures |s| == 36
  {
    seq(36, i requires 0 <= i < 36 => if IsDashPosition(i) then '-' else UpperHexDigit(u.nibbles[NibbleIndex(i)]))
  }

  /** Writing a UUID and parsing it back gives the same UUID, in either case. */
  lemma UuidTextRoundTrip(u: Uuid)
    ensures IsUuidText(UuidToString(u)) && ParseUuid(UuidToString(u)) == u
    ensures IsUuidText(UuidToUpperString(u)) && ParseUuid(UuidToUpperString(u)) == u
  {
    var s, t := UuidToString(u), UuidToUpperString(u);
    assert ParseUuid(s).nibbles == u.nibbles by {
      forall k | 0 <= k < 32 ensures ParseUuid(s).nibbles[k] == u.nibbles[k] {
        assert s[CharIndex(k)] == LowerHexDigit(u.nibbles[k]);
      }
    }
    assert ParseUuid(t).nibbles == u.nibbles by {
      forall k | 0 <= k < 32 ensures ParseUuid(t).nibbles[k] == u.nibbles[k] {
        assert t[CharIndex(k)] == UpperHexDigit(u.nibbles[k]);
      }
    }
  }

  /** Parsing text of the hex shape and writing it again gives the text with
      its hex digits in lower case, so two texts that denote the same UUID
      differ only in the case of their letters. */
  lemma ParseThenWrite(s: string)
    requires IsUuidText(s)
    ensures forall i :: 0 <= i < 36 ==>
      (IsDashPosition(i) ==> UuidToString(ParseUuid(s))[i] == s[i]) &&
      (!IsDashPosition(i) ==> UuidToString(ParseUuid(s))[i] == LowerHexDigit(HexValue(s[i])))
  {
  }
}
