/**
 * Byte strings and the two hex conversions the envelope relies on:
 * `bytes.hex()` (lower-case, two digits per byte) and `binascii.unhexlify`
 * (accepts either case, rejects non-ASCII text, odd lengths and non-hex digits).
 */
module Bytes {
  import opened Wrappers

  newtype byte = x: int | 0 <= x < 256
  type bytes = seq<byte>

  /** The digit `bytes.hex()` writes for a nibble. */
  function HexDigit(n: int): (c: char)
    requires 0 <= n < 16
  {
    if n < 10 then ('0' as int + n) as char else ('a' as int + n - 10) as char
  }

  predicate IsLowerHexDigit(c: char) {
    '0' <= c <= '9' || 'a' <= c <= 'f'
  }

  /** What `bytes.hex()` can produce: an even number of lower-case hex digits. */
  predicate IsLowerHex(s: string) {
    |s| % 2 == 0 && forall i :: 0 <= i < |s| ==> IsLowerHexDigit(s[i])
  }

  /** `bytes.hex()`: high nibble first, lower-case, no prefix. */
  function Hex(b: bytes): (s: string)
    ensures |s| == 2 * |b|
    ensures IsLowerHex(s)
  {
    if b == [] then ""
    else [HexDigit(b[0] as int / 16), HexDigit(b[0] as int % 16)] + Hex(b[1..])
  }

  datatype HexError = NonAscii | OddLength | NonHexDigit

  /** The value of a hex digit of either case, as binascii reads it. */
  function Nibble(c: char): (r: Option<int>)
    ensures r.Some? ==> 0 <= r.value < 16
  {
    if '0' <= c <= '9' then Some(c as int - '0' as int)
    else if 'a' <= c <= 'f' then Some(c as int - 'a' as int + 10)
    else if 'A' <= c <= 'F' then Some(c as int - 'A' as int + 10)
    else None
  }

  predicate IsAscii(s: string) {
    forall i :: 0 <= i < |s| ==> s[i] as int < 128
  }

  /**
   * `binascii.unhexlify(s)` for a `str` argument: the text must be ASCII,
   * of even length, and made of hex digits of either case.
   */
  function Unhexlify(s: string): (r: Result<bytes, HexError>)
    ensures r.Ok? ==> |s| == 2 * |r.value|
    ensures r.Ok? <==> IsAscii(s) && |s| % 2 == 0 && forall i :: 0 <= i < |s| ==> Nibble(s[i]).Some?
  {
    if !IsAscii(s) then Err(NonAscii)
    else if |s| % 2 == 1 then Err(OddLength)
    else DecodePairs(s)
  }

  function DecodePairs(s: string): (r: Result<bytes, HexError>)
    requires |s| % 2 == 0
    ensures r.Ok? ==> |s| == 2 * |r.value|
    ensures r.Ok? <==> forall i :: 0 <= i < |s| ==> Nibble(s[i]).Some?
  {
    if s == [] then Ok([])
    else
      var hi, lo := Nibble(s[0]), Nibble(s[1]);
      if hi.None? || lo.None? then Err(NonHexDigit)
      else match DecodePairs(s[2..])
        case Err(e) => Err(e)
        case Ok(rest) => Ok([(hi.value * 16 + lo.value) as byte] + rest)
  }

  /** Round trip: unhexlify undoes hex. */
  lemma {:induction false} UnhexlifyHex(b: bytes)
    ensures Unhexlify(Hex(b)) == Ok(b)
  {
    var s := Hex(b);
    assert IsAscii(s) by {
      forall i | 0 <= i < |s| ensures s[i] as int < 128 {
        assert IsLowerHexDigit(s[i]);
      }
    }
    DecodePairsHex(b);
  }

  lemma {:induction false} DecodePairsHex(b: bytes)
    ensures DecodePairs(Hex(b)) == Ok(b)
  {
    if b != [] {
      var s := Hex(b);
      assert s[2..] == Hex(b[1..]);
      DecodePairsHex(b[1..]);
      assert Nibble(s[0]) == Some(b[0] as int / 16);
      assert Nibble(s[1]) == Some(b[0] as int % 16);
      assert [b[0]] + b[1..] == b;
    }
  }

  /** Different byte strings have different hex forms. */
  lemma HexInjective(a: bytes, b: bytes)
    ensures Hex(a) == Hex(b) <==> a == b
  {
    UnhexlifyHex(a);
    UnhexlifyHex(b);
  }

  /** Converse round trip: a lower-case hex string is the hex form of what it decodes to. */
  lemma {:induction false} HexUnhexlify(s: string)
    requires IsLowerHex(s)
    ensures Unhexlify(s).Ok? && Hex(Unhexlify(s).value) == s
  {
    assert IsAscii(s) by {
      forall i | 0 <= i < |s| ensures s[i] as int < 128 {
        assert IsLowerHexDigit(s[i]);
      }
    }
    assert forall i :: 0 <= i < |s| ==> Nibble(s[i]).Some? by {
      forall i | 0 <= i < |s| ensures Nibble(s[i]).Some? {
        assert IsLowerHexDigit(s[i]);
      }
    }
    HexDecodePairs(s);
  }

  lemma {:induction false} HexDecodePairs(s: string)
    requires IsLowerHex(s)
    ensures DecodePairs(s).Ok? && Hex(DecodePairs(s).value) == s
  {
    if s != [] {
      var t := s[2..];
      assert IsLowerHex(t) by {
        forall i | 0 <= i < |t| ensures IsLowerHexDigit(t[i]) {
          assert t[i] == s[i + 2];
        }
      }
      HexDecodePairs(t);
      assert IsLowerHexDigit(s[0]) && IsLowerHexDigit(s[1]);
      var hi, lo := Nibble(s[0]).value, Nibble(s[1]).value;
      var v := hi * 16 + lo;
      assert v / 16 == hi && v % 16 == lo;
      assert HexDigit(hi) == s[0] && HexDigit(lo) == s[1];
      assert s == [s[0], s[1]] + t;
    }
  }
}
