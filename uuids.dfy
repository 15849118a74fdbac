/**
 * Identifiers. A UUID is modelled by an unbounded natural number, written in the
 * hyphenated text form of its low 128 bits; `Uuid::new_v4` becomes a draw from a
 * shared counter (`IdSource`), so every id it hands out differs from every id it
 * handed out before.
 */
module Uuids {

  type Uuid = nat

  /** 16^k */
  function Pow16(k: nat): (p: nat)
    ensures p >= 1
  {
    if k == 0 then 1 else 16 * Pow16(k - 1)
  }

  /** Number of distinct UUIDs: 2^128. */
  const UUID_SPACE: nat := Pow16(32)

  const HEX_DIGITS: string := "0123456789abcdef"

  function HexDigit(d: nat): (c: char)
    requires d < 16
  {
    HEX_DIGITS[d]
  }

  lemma HexDigitInjective(a: nat, b: nat)
    requires a < 16 && b < 16 && HexDigit(a) == HexDigit(b)
    ensures a == b
  {
    var h := HEX_DIGITS;
    assert h[0] == '0' && h[1] == '1' && h[2] == '2' && h[3] == '3' && h[4] == '4' && h[5] == '5'
      && h[6] == '6' && h[7] == '7' && h[8] == '8' && h[9] == '9' && h[10] == 'a' && h[11] == 'b'
      && h[12] == 'c' && h[13] == 'd' && h[14] == 'e' && h[15] == 'f';
  }

  /** The low `width` lowercase hexadecimal digits of `n`, most significant first. */
  function Hex(n: nat, width: nat): (s: string)
    ensures |s| == width
  {
    if width == 0 then [] else Hex(n / 16, width - 1) + [HexDigit(n % 16)]
  }

  /** Below 16^width, the digit string determines the number. */
  lemma {:induction false} HexInjective(a: nat, b: nat, width: nat)
    requires a < Pow16(width) && b < Pow16(width)
    requires Hex(a, width) == Hex(b, width)
    ensures a == b
  {
    if width > 0 {
      var ha, hb := Hex(a, width), Hex(b, width);
      assert ha[width - 1] == HexDigit(a % 16);
      assert hb[width - 1] == HexDigit(b % 16);
      HexDigitInjective(a % 16, b % 16);
      assert ha[..width - 1] == Hex(a / 16, width - 1);
      assert hb[..width - 1] == Hex(b / 16, width - 1);
      HexInjective(a / 16, b / 16, width - 1);
    }
  }

  /** Groups 32 hex digits as 8-4-4-4-12 separated by hyphens. */
  function Hyphenate(h: string): (t: string)
    requires |h| == 32
    ensures |t| == 36
    ensures t[8] == '-' && t[13] == '-' && t[18] == '-' && t[23] == '-'
  {
    h[..8] + "-" + h[8..12] + "-" + h[12..16] + "-" + h[16..20] + "-" + h[20..]
  }

  /** Removing the hyphens gives the digits back. */
  lemma HyphenateInjective(g: string, h: string)
    requires |g| == 32 && |h| == 32 && Hyphenate(g) == Hyphenate(h)
    ensures g == h
  {
    var t := Hyphenate(g);
    assert t[..8] == g[..8] && t[9..13] == g[8..12] && t[14..18] == g[12..16]
      && t[19..23] == g[16..20] && t[24..] == g[20..];
    assert t[..8] == h[..8] && t[9..13] == h[8..12] && t[14..18] == h[12..16]
      && t[19..23] == h[16..20] && t[24..] == h[20..];
    assert g == g[..8] + g[8..12] + g[12..16] + g[16..20] + g[20..];
    assert h == h[..8] + h[8..12] + h[12..16] + h[16..20] + h[20..];
  }

  /** `Uuid::to_string`: the hyphenated 8-4-4-4-12 form of the low 128 bits. */
  function UuidText(u: Uuid): (s: string)
    ensures |s| == 36
    ensures s[8] == '-' && s[13] == '-' && s[18] == '-' && s[23] == '-'
  {
    Hyphenate(Hex(u, 32))
  }

  /** Distinct UUIDs have distinct text forms, so the text can stand for the id. */
  lemma UuidTextInjective(a: Uuid, b: Uuid)
    requires a < UUID_SPACE && b < UUID_SPACE && a != b
    ensures UuidText(a) != UuidText(b)
  {
    if UuidText(a) == UuidText(b) {
      HyphenateInjective(Hex(a, 32), Hex(b, 32));
      HexInjective(a, b, 32);
    }
  }

  /** The process-wide generator behind `Uuid::new_v4`. */
  class IdSource {
    var next: nat

    constructor (start: nat)
      ensures next == start
    {
      next := start;
    }

    /** Draws an id no earlier draw has returned. */
    method NewV4() returns (id: Uuid)
      modifies this`next
      ensures id == old(next) && next == old(next) + 1
    {
      id := next;
      next := next + 1;
    }
  }
}
