/**
 * Companion identities. A Foundation `UUID` is sixteen bytes; its `uuidString`
 * is the upper-case hexadecimal 8-4-4-4-12 form. The storage key is built from
 * that string, so the only thing the rest of the model needs from this module
 * is that `UuidString` is injective, which is proved here by a parser that
 * inverts it.
 */
module Uuids {
  import opened Wrappers

  type Byte = b: int | 0 <= b < 256

  type Uuid = s: seq<Byte> | |s| == 16 witness seq(16, i => 0)

  /** The upper-case hexadecimal digit for `n`. */
  function HexDigit(n: int): (c: char)
    requires 0 <= n < 16
    ensures DigitValue(c) == n
  {
    if n < 10 then ('0' as int + n) as char else ('A' as int + n - 10) as char
  }

  /** The value of a hexadecimal digit written by `HexDigit`. */
  function DigitValue(c: char): (v: int)
  {
    if '0' <= c <= '9' then c as int - '0' as int else c as int - 'A' as int + 10
  }

  function HexByte(b: Byte): (s: string)
    ensures |s| == 2
  {
    [HexDigit(b / 16), HexDigit(b % 16)]
  }

  /** Two hexadecimal characters per byte, most significant digit first. */
  function HexBytes(bs: seq<Byte>): (s: string)
    ensures |s| == 2 * |bs|
  {
    if bs == [] then [] else HexByte(bs[0]) + HexBytes(bs[1..])
  }

  function ParseHexBytes(s: string): (bs: seq<int>)
    requires |s| % 2 == 0
  {
    if |s| == 0 then [] else [DigitValue(s[0]) * 16 + DigitValue(s[1])] + ParseHexBytes(s[2..])
  }

  lemma {:induction false} HexBytesRoundTrip(bs: seq<Byte>)
    ensures ParseHexBytes(HexBytes(bs)) == bs
  {
    if bs != [] {
      var s := HexBytes(bs);
      assert s[..2] == HexByte(bs[0]);
      assert s[2..] == HexBytes(bs[1..]);
      HexBytesRoundTrip(bs[1..]);
    }
  }

  /** `UUID.uuidString`: groups of 4, 2, 2, 2 and 6 bytes joined by hyphens. */
  function UuidString(u: Uuid): (s: string)
    ensures |s| == 36
  {
    HexBytes(u[..4]) + "-" + HexBytes(u[4..6]) + "-" + HexBytes(u[6..8]) + "-"
      + HexBytes(u[8..10]) + "-" + HexBytes(u[10..])
  }

  /**
   * Reads the sixteen bytes back out of a UUID string: 36 characters with
   * hyphens at positions 8, 13, 18 and 23; anything else is rejected.
   */
  function ParseUuidString(s: string): (r: Option<seq<int>>)
    ensures r.Some? ==> |s| == 36 && s[8] == s[13] == s[18] == s[23] == '-'
  {
    if |s| == 36 && s[8] == '-' && s[13] == '-' && s[18] == '-' && s[23] == '-' then
      Some(ParseHexBytes(s[..8]) + ParseHexBytes(s[9..13]) + ParseHexBytes(s[14..18])
        + ParseHexBytes(s[19..23]) + ParseHexBytes(s[24..]))
    else None
  }

  /** The string has the 8-4-4-4-12 layout, and its bytes read back as the UUID. */
  lemma UuidStringRoundTrip(u: Uuid)
    ensures ParseUuidString(UuidString(u)) == Some(u)
  {
    var s := UuidString(u);
    assert s[8] == '-' && s[13] == '-' && s[18] == '-' && s[23] == '-';
    assert s[..8] == HexBytes(u[..4]);
    assert s[9..13] == HexBytes(u[4..6]);
    assert s[14..18] == HexBytes(u[6..8]);
    assert s[19..23] == HexBytes(u[8..10]);
    assert s[24..] == HexBytes(u[10..]);
    HexBytesRoundTrip(u[..4]);
    HexBytesRoundTrip(u[4..6]);
    HexBytesRoundTrip(u[6..8]);
    HexBytesRoundTrip(u[8..10]);
    HexBytesRoundTrip(u[10..]);
    assert u == u[..4] + u[4..6] + u[6..8] + u[8..10] + u[10..];
  }

  /** Distinct identities have distinct UUID strings. */
  lemma UuidStringInjective(u: Uuid, v: Uuid)
    ensures UuidString(u) == UuidString(v) <==> u == v
  {
    UuidStringRoundTrip(u);
    UuidStringRoundTrip(v);
  }
}
