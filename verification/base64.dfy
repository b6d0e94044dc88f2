/** Base64 encoding with padding, as defined in section 4 of RFC 4648 (what Python's
    `base64.b64encode` produces). Only the length and the alphabet of the output matter to the
    service, but the encoder is given in full so that the length is a proved fact. */
module Base64 {

  newtype Byte = x: int | 0 <= x < 256

  const PAD: char := '='

  /** Length of the padded encoding of `n` bytes: four characters per started group of three. */
  function EncodedLength(n: nat): nat {
    4 * ((n + 2) / 3)
  }

  /** A character of the 64-character alphabet of section 4 of RFC 4648. */
  predicate InAlphabet(c: char) {
    'A' <= c <= 'Z' || 'a' <= c <= 'z' || '0' <= c <= '9' || c == '+' || c == '/'
  }

  /** A character that may appear in padded Base64 output. */
  predicate IsBase64Char(c: char) {
    InAlphabet(c) || c == PAD
  }

  /** The alphabet character for a 6-bit value: A-Z, a-z, 0-9, then + and /. */
  function Sextet(i: int): (c: char)
    requires 0 <= i < 64
    ensures InAlphabet(c)
  {
    if i < 26 then ('A' as int + i) as char
    else if i < 52 then ('a' as int + i - 26) as char
    else if i < 62 then ('0' as int + i - 52) as char
    else if i == 62 then '+'
    else '/'
  }

  /** Three input bytes become four alphabet characters. */
  function EncodeGroup(b0: Byte, b1: Byte, b2: Byte): (r: string)
    ensures |r| == 4 && forall c | c in r :: InAlphabet(c)
  {
    var x0, x1, x2 := b0 as int, b1 as int, b2 as int;
    [Sextet(x0 / 4), Sextet((x0 % 4) * 16 + x1 / 16), Sextet((x1 % 16) * 4 + x2 / 64), Sextet(x2 % 64)]
  }

  /** The final one or two bytes are zero-extended and the quantum is padded with `=`. */
  function EncodeTail(s: seq<Byte>): (r: string)
    requires 1 <= |s| <= 2
    ensures |r| == 4 && r[3] == PAD && (r[2] == PAD <==> |s| == 1)
    ensures forall c | c in r :: IsBase64Char(c)
  {
    var x0 := s[0] as int;
    if |s| == 1 then
      [Sextet(x0 / 4), Sextet((x0 % 4) * 16), PAD, PAD]
    else
      var x1 := s[1] as int;
      [Sextet(x0 / 4), Sextet((x0 % 4) * 16 + x1 / 16), Sextet((x1 % 16) * 4), PAD]
  }

  /** Encodes a byte string, three bytes at a time. */
  function Encode(s: seq<Byte>): (r: string)
    ensures |r| == EncodedLength(|s|)
    ensures forall c | c in r :: IsBase64Char(c)
    decreases |s|
  {
    if |s| == 0 then ""
    else if |s| <= 2 then EncodeTail(s)
    else EncodeGroup(s[0], s[1], s[2]) + Encode(s[3..])
  }

  /** The encoding of `n` bytes is never shorter than 4n/3 characters and overshoots it by less
      than four: three quarters of the encoded length bounds the raw size from above by at most
      two bytes. */
  lemma EncodedLengthBounds(n: nat)
    ensures 4 * n <= 3 * EncodedLength(n) < 4 * n + 12
    ensures n <= 3 * EncodedLength(n) / 4 <= n + 2
  {
  }
}
