/** The hexadecimal text form of digests and attestations (src/transport_runtime.rs). */
module Hex {
  import opened Prelude

  predicate IsHexDigit(c: char) {
    '0' <= c <= '9' || 'a' <= c <= 'f' || 'A' <= c <= 'F'
  }

  /** What the journal's `request_hash` CHECK accepts, one character at a time. */
  predicate IsLowerHexDigit(c: char) {
    '0' <= c <= '9' || 'a' <= c <= 'f'
  }

  /** The table of sixteen digits, by position. */
  function Digit(n: int): (c: char)
    requires 0 <= n < 16
    ensures IsLowerHexDigit(c)
  {
    if n < 10 then '0' + n as char else 'a' + (n - 10) as char
  }

  function DecodeNibble(c: char): (r: Option<int>)
    ensures r.Some? <==> IsHexDigit(c)
    ensures r.Some? ==> 0 <= r.value < 16 && Digit(r.value) == LowerChar(c)
  {
    if '0' <= c <= '9' then Some(c as int - '0' as int)
    else if 'a' <= c <= 'f' then Some(c as int - 'a' as int + 10)
    else if 'A' <= c <= 'F' then Some(c as int - 'A' as int + 10)
    else None
  }

  function LowerChar(c: char): char {
    if 'A' <= c <= 'Z' then c + 32 as char else c
  }

  function Lower(s: string): string {
    seq(|s|, k requires 0 <= k < |s| => LowerChar(s[k]))
  }

  predicate AllHex(s: string) {
    forall k :: 0 <= k < |s| ==> IsHexDigit(s[k])
  }

  lemma NibblesOfAByte(high: int, low: int)
    requires 0 <= high < 16 && 0 <= low < 16
    ensures (high * 16 + low) / 16 == high && (high * 16 + low) % 16 == low
  {
  }

  /** The two digits of one byte, high nibble first. */
  function BytePair(b: byte): (s: string)
    ensures |s| == 2
  {
    [Digit(b / 16), Digit(b % 16)]
  }

  /** Two digits for each byte. */
  function EncodeHex(b: Bytes): (s: string)
    ensures |s| == 2 * |b|
  {
    seq(2 * |b|, k requires 0 <= k < 2 * |b| => BytePair(b[k / 2])[k % 2])
  }

  /** The byte a pair of hexadecimal digits stands for. */
  function PairByte(high: char, low: char): (b: byte)
    requires IsHexDigit(high) && IsHexDigit(low)
    ensures BytePair(b) == [LowerChar(high), LowerChar(low)]
  {
    NibblesOfAByte(DecodeNibble(high).value, DecodeNibble(low).value);
    DecodeNibble(high).value * 16 + DecodeNibble(low).value
  }

  function DecodePairs(s: string): (b: Bytes)
    requires |s| % 2 == 0 && AllHex(s)
    ensures |b| == |s| / 2
  {
    seq(|s| / 2, k requires 0 <= k < |s| / 2 => PairByte(s[2 * k], s[2 * k + 1]))
  }

  function DecodeSha256Hex(s: string): Option<Digest> {
    if |s| != 64 || !AllHex(s) then None else Some(DecodePairs(s))
  }

  /** The encoder's loop: push two digits for each byte. */
  method PushHex(value: Bytes) returns (encoded: string)
    ensures encoded == EncodeHex(value)
  {
    encoded := "";
    for i := 0 to |value|
      invariant encoded == EncodeHex(value[..i])
    {
      assert EncodeHex(value[..i + 1]) == EncodeHex(value[..i]) + BytePair(value[i]);
      encoded := encoded + [Digit(value[i] / 16)];
      encoded := encoded + [Digit(value[i] % 16)];
    }
    assert value[..|value|] == value;
  }

  /** The decoder's loop: fill a buffer pair by pair. */
  method FillPairs(value: string, size: nat) returns (decoded: array<byte>)
    requires |value| == 2 * size && AllHex(value)
    ensures fresh(decoded) && decoded[..] == DecodePairs(value)
  {
    decoded := new byte[size](_ => 0);
    for index := 0 to size
      invariant decoded[..index] == DecodePairs(value)[..index]
    {
      var high, low := value[2 * index], value[2 * index + 1];
      decoded[index] := PairByte(high, low);
      assert decoded[..index + 1] == decoded[..index] + [PairByte(high, low)];
    }
  }

  /** Refuse on length or alphabet before anything is decoded. */
  method FillSha256(value: string) returns (r: Option<Digest>)
    ensures r == DecodeSha256Hex(value)
  {
    if |value| != 64 || !AllHex(value) {
      return None;
    }
    var decoded := FillPairs(value, 32);
    return Some(decoded[..]);
  }

  lemma EncodedIsLowerHex(b: Bytes)
    ensures AllHex(EncodeHex(b)) && forall k :: 0 <= k < |EncodeHex(b)| ==> IsLowerHexDigit(EncodeHex(b)[k])
  {
  }

  lemma PairOfByte(b: byte)
    ensures IsHexDigit(BytePair(b)[0]) && IsHexDigit(BytePair(b)[1])
    ensures PairByte(BytePair(b)[0], BytePair(b)[1]) == b
  {
    DigitIsItsNibble(b / 16);
    DigitIsItsNibble(b % 16);
  }

  lemma DigitIsItsNibble(n: int)
    requires 0 <= n < 16
    ensures DecodeNibble(Digit(n)) == Some(n)
  {
  }

  lemma DigitsOfByte(b: Bytes, k: nat)
    requires k < |b|
    ensures EncodeHex(b)[2 * k] == BytePair(b[k])[0] && EncodeHex(b)[2 * k + 1] == BytePair(b[k])[1]
  {
  }

  lemma DigitsInOrder(n: int)
    requires 0 <= n < 16
    ensures Digit(n) == "0123456789abcdef"[n]
  {
  }

  /** High nibble first. */
  lemma EncodedDigits(b: Bytes, k: nat)
    requires k < |b|
    ensures EncodeHex(b)[2 * k] == "0123456789abcdef"[b[k] / 16]
    ensures EncodeHex(b)[2 * k + 1] == "0123456789abcdef"[b[k] % 16]
  {
    DigitsOfByte(b, k);
    DigitsInOrder(b[k] / 16);
    DigitsInOrder(b[k] % 16);
  }

  lemma PairsUndoEncode(b: Bytes)
    ensures AllHex(EncodeHex(b)) && DecodePairs(EncodeHex(b)) == b
  {
    EncodedIsLowerHex(b);
    forall k | 0 <= k < |b|
      ensures DecodePairs(EncodeHex(b))[k] == b[k]
    {
      DigitsOfByte(b, k);
      PairOfByte(b[k]);
    }
  }

  lemma EncodeUndoesPairs(s: string)
    requires |s| % 2 == 0 && AllHex(s)
    ensures EncodeHex(DecodePairs(s)) == Lower(s)
  {
    forall k | 0 <= k < |s|
      ensures EncodeHex(DecodePairs(s))[k] == Lower(s)[k]
    {
      var high := s[2 * (k / 2)];
      assert BytePair(DecodePairs(s)[k / 2]) == [LowerChar(high), LowerChar(s[2 * (k / 2) + 1])];
    }
  }

  /** Reading back an encoded digest gives the digest. */
  lemma DecodeUndoesEncode(b: Digest)
    ensures DecodeSha256Hex(EncodeHex(b)) == Some(b)
  {
    PairsUndoEncode(b);
  }

  /** Only 64 hex digits decode, and writing out the decoded bytes gives the text in lower case. */
  lemma EncodeUndoesDecode(s: string)
    ensures DecodeSha256Hex(s).Some? <==> |s| == 64 && AllHex(s)
    ensures DecodeSha256Hex(s).Some? ==> EncodeHex(DecodeSha256Hex(s).value) == Lower(s)
  {
    if |s| == 64 && AllHex(s) {
      EncodeUndoesPairs(s);
    }
  }

  /** Case does not matter to the decoder. */
  lemma DecodeIgnoresCase(s: string)
    ensures AllHex(s) ==> DecodeSha256Hex(Lower(s)) == DecodeSha256Hex(s)
  {
    if AllHex(s) {
      assert AllHex(Lower(s));
      if |s| == 64 {
        EncodeUndoesPairs(s);
        PairsUndoEncode(DecodePairs(s));
      }
    }
  }
}
