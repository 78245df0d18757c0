/** Node's `Buffer.toString("hex")`, used for certificate serial numbers. */
module Hex {
  import opened Wrappers

  type byte = x: int | 0 <= x < 256

  /** What `randomBytes(32)` hands back: exactly 32 bytes. */
  type Bytes32 = b: seq<byte> | |b| == 32 witness seq(32, i => 0)

  const Digits: string := "0123456789abcdef"

  predicate IsHexDigit(c: char)
  {
    '0' <= c <= '9' || 'a' <= c <= 'f'
  }

  function DigitOf(n: nat): (c: char)
    requires n < 16
    ensures IsHexDigit(c) && NibbleOf(c) == n
  {
    Digits[n]
  }

  function NibbleOf(c: char): (n: nat)
    requires IsHexDigit(c)
    ensures n < 16
  {
    if c <= '9' then (c as int) - ('0' as int) else (c as int) - ('a' as int) + 10
  }

  /** Two lower-case hex digits per byte, high nibble first. */
  function Encode(b: seq<byte>): (s: string)
    ensures |s| == 2 * |b|
    ensures forall i :: 0 <= i < |s| ==> IsHexDigit(s[i])
  {
    if b == [] then [] else [DigitOf(b[0] / 16), DigitOf(b[0] % 16)] + Encode(b[1..])
  }

  /** The inverse of `Encode`: `None` on an odd length or a character that is not a lower-case hex digit. */
  function Decode(s: string): Option<seq<byte>>
    decreases |s|
  {
    if s == [] then Some([])
    else if |s| == 1 || !IsHexDigit(s[0]) || !IsHexDigit(s[1]) then None
    else
      match Decode(s[2..])
      case None => None
      case Some(rest) => Some([16 * NibbleOf(s[0]) + NibbleOf(s[1])] + rest)
  }

  lemma {:induction false} DecodeEncode(b: seq<byte>)
    ensures Decode(Encode(b)) == Some(b)
  {
    if b != [] {
      var s := Encode(b);
      assert s[2..] == Encode(b[1..]);
      DecodeEncode(b[1..]);
      assert 16 * NibbleOf(s[0]) + NibbleOf(s[1]) == b[0];
      assert [b[0]] + b[1..] == b;
    }
  }

  /** Distinct random bytes give distinct serial numbers. */
  lemma EncodeInjective(a: seq<byte>, b: seq<byte>)
    requires Encode(a) == Encode(b)
    ensures a == b
  {
    DecodeEncode(a);
    DecodeEncode(b);
  }

  /** A serial number as `createCertificate` draws it: 64 lower-case hex digits. */
  lemma SerialShape(bytes: Bytes32)
    ensures |Encode(bytes)| == 64
    ensures forall i :: 0 <= i < 64 ==> IsHexDigit(Encode(bytes)[i])
  {
  }
}
