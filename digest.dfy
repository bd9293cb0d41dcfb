/**
  `sha256(message)` of both source files: encode the message as UTF-8
  (`TextEncoder`), digest it, and print every digest byte as two lower-case
  hexadecimal digits (`b.toString(16).padStart(2, '0')`, then `join('')`).
  SHA-256 itself is the host's; it enters as a function argument.
 */
module Digest {
  import opened JsValues

  /** A SHA-256 digest: 32 bytes. */
  type Digest = s: seq<byte> | |s| == 32 witness seq(32, i => 0 as byte)

  /** The digest function of `crypto.subtle.digest('SHA-256', ·)`. */
  type Hasher = seq<byte> -> Digest

  // ---------------------------------------------------------------- hexadecimal

  predicate IsLowerHex(c: char) {
    ('0' <= c <= '9') || ('a' <= c <= 'f')
  }

  function HexChar(d: nat): (c: char)
    requires d < 16
    ensures IsLowerHex(c)
  {
    if d < 10 then (48 + d) as char else (87 + d) as char
  }

  function HexValue(c: char): (d: nat)
    requires IsLowerHex(c)
    ensures d < 16 && HexChar(d) == c
  {
    if c <= '9' then c as int - 48 else c as int - 87
  }

  /** `n.toString(16)`: base-16 digits of `n` without leading zeros. */
  function Radix16(n: nat): (r: string)
    ensures 1 <= |r|
  {
    if n < 16 then [HexChar(n)] else Radix16(n / 16) + [HexChar(n % 16)]
  }

  /** `s.padStart(width, fill)`. */
  function PadStart(s: string, width: nat, fill: char): (r: string)
    ensures |r| == if |s| >= width then |s| else width
  {
    if |s| >= width then s else seq(width - |s|, _ => fill) + s
  }

  /** `b.toString(16).padStart(2, '0')`. */
  function ByteHex(b: byte): string {
    PadStart(Radix16(b as int), 2, '0')
  }

  /** The padded text of a byte is its high and its low nibble, in that order. */
  lemma ByteHexDigits(b: byte)
    ensures ByteHex(b) == [HexChar(b as int / 16), HexChar(b as int % 16)]
  {
    var n := b as int;
    if n >= 16 {
      assert Radix16(n / 16) == [HexChar(n / 16)];
    }
  }

  /** `hashArray.map(b => ...).join('')`. */
  function HexEncode(bytes: seq<byte>): string {
    if bytes == [] then "" else ByteHex(bytes[0]) + HexEncode(bytes[1..])
  }

  /** Reads pairs of lower-case hexadecimal digits back into bytes; the inverse of `HexEncode`. */
  function HexDecode(s: string): Option<seq<byte>>
    decreases |s|
  {
    if s == [] then Some([])
    else if |s| == 1 || !IsLowerHex(s[0]) || !IsLowerHex(s[1]) then None
    else match HexDecode(s[2..])
      case None => None
      case Some(rest) => Some([(HexValue(s[0]) * 16 + HexValue(s[1])) as byte] + rest)
  }

  lemma {:induction false} HexEncodeShape(bytes: seq<byte>)
    ensures |HexEncode(bytes)| == 2 * |bytes|
    ensures forall k :: 0 <= k < |HexEncode(bytes)| ==> IsLowerHex(HexEncode(bytes)[k])
  {
    if bytes != [] {
      ByteHexDigits(bytes[0]);
      HexEncodeShape(bytes[1..]);
    }
  }

  lemma {:induction false} HexRoundTrip(bytes: seq<byte>)
    ensures HexDecode(HexEncode(bytes)) == Some(bytes)
  {
    if bytes != [] {
      var b := bytes[0] as int;
      ByteHexDigits(bytes[0]);
      var s := HexEncode(bytes);
      assert s[..2] == ByteHex(bytes[0]) && s[2..] == HexEncode(bytes[1..]);
      HexRoundTrip(bytes[1..]);
      assert HexValue(s[0]) == b / 16 && HexValue(s[1]) == b % 16;
      assert [bytes[0]] + bytes[1..] == bytes;
    }
  }

  // ---------------------------------------------------------------- UTF-8

  /** `new TextEncoder().encode` of one Unicode scalar value. */
  function Utf8Char(c: char): (r: seq<byte>)
    ensures 1 <= |r| <= 4
    ensures |r| == 1 <==> c as int < 0x80
    ensures c as int < 0x80 ==> r[0] as int == c as int
  {
    var n := c as int;
    if n < 0x80 then [n as byte]
    else if n < 0x800 then [(0xC0 + n / 0x40) as byte, (0x80 + n % 0x40) as byte]
    else if n < 0x10000 then
      [(0xE0 + n / 0x1000) as byte, (0x80 + (n / 0x40) % 0x40) as byte, (0x80 + n % 0x40) as byte]
    else
      [(0xF0 + n / 0x40000) as byte, (0x80 + (n / 0x1000) % 0x40) as byte,
       (0x80 + (n / 0x40) % 0x40) as byte, (0x80 + n % 0x40) as byte]
  }

  /** `new TextEncoder().encode(message)`. */
  function Utf8(message: string): seq<byte> {
    if message == [] then [] else Utf8Char(message[0]) + Utf8(message[1..])
  }

  /** Encoding a concatenation encodes its parts one after the other. */
  lemma {:induction false} Utf8Append(a: string, b: string)
    ensures Utf8(a + b) == Utf8(a) + Utf8(b)
  {
    if a == [] {
      assert a + b == b;
    } else {
      assert (a + b)[0] == a[0] && (a + b)[1..] == a[1..] + b;
      Utf8Append(a[1..], b);
    }
  }

  /** An ASCII message encodes to its character codes, one byte each. */
  lemma {:induction false} Utf8Ascii(message: string)
    requires forall k :: 0 <= k < |message| ==> message[k] as int < 0x80
    ensures Utf8(message) == seq(|message|, k requires 0 <= k < |message| => message[k] as int as byte)
  {
    if message != [] {
      Utf8Ascii(message[1..]);
    }
  }

  // ---------------------------------------------------------------- sha256

  /** `sha256(message)`: the hexadecimal text of the digest of the UTF-8 bytes of `message`. */
  function Sha256(hash: Hasher, message: string): string {
    HexEncode(hash(Utf8(message)))
  }

  /** The text is 64 lower-case hexadecimal digits that decode to the digest. */
  lemma Sha256Text(hash: Hasher, message: string)
    ensures |Sha256(hash, message)| == 64
    ensures forall k :: 0 <= k < 64 ==> IsLowerHex(Sha256(hash, message)[k])
    ensures HexDecode(Sha256(hash, message)) == Some(hash(Utf8(message)))
  {
    HexEncodeShape(hash(Utf8(message)));
    HexRoundTrip(hash(Utf8(message)));
  }
}
