/**
 * Base16 decoding as the `hex` crate's `decode` does it (section 8 of
 * RFC 4648, either letter case accepted), with the lower-case encoder as its
 * partner. Characters stand for the bytes of the input string.
 */
module Hex {
  import opened Wrappers
  import opened SmartAccount

  datatype FromHexError =
    | OddLength
    | InvalidHexCharacter(c: char, index: nat)

  const LOWER_DIGITS: string := "0123456789abcdef"

  /** The value of one hexadecimal digit, upper or lower case. */
  function Val(c: char): (v: Option<nat>)
    ensures v.Some? ==> v.value < 16
  {
    if 'A' <= c <= 'F' then Some(c as int - 'A' as int + 10)
    else if 'a' <= c <= 'f' then Some(c as int - 'a' as int + 10)
    else if '0' <= c <= '9' then Some(c as int - '0' as int)
    else None
  }

  predicate IsHexDigit(c: char) {
    Val(c).Some?
  }

  /** The byte written by the digit pair `hi lo`. */
  function PairByte(hi: char, lo: char): Byte
    requires IsHexDigit(hi) && IsHexDigit(lo)
  {
    Val(hi).value * 16 + Val(lo).value
  }

  /**
   * Decodes the digit pairs of `s` from index `from` on, stopping at the
   * first character, left to right, that is not a digit.
   */
  function DecodeFrom(s: string, from: nat): (r: Result<seq<Byte>, FromHexError>)
    requires |s| % 2 == 0 && from <= |s| && from % 2 == 0
    decreases |s| - from
    ensures r.Ok? <==> forall i :: from <= i < |s| ==> IsHexDigit(s[i])
    ensures r.Ok? ==> |r.value| * 2 == |s| - from
  {
    if from == |s| then Ok([])
    else if !IsHexDigit(s[from]) then Err(InvalidHexCharacter(s[from], from))
    else if !IsHexDigit(s[from + 1]) then Err(InvalidHexCharacter(s[from + 1], from + 1))
    else
      match DecodeFrom(s, from + 2)
      case Err(e) => Err(e)
      case Ok(rest) => Ok([PairByte(s[from], s[from + 1])] + rest)
  }

  /** Byte `k` of a successful decoding is the value of digit pair `k`. */
  lemma {:induction false} DecodeFromByte(s: string, from: nat, k: nat)
    requires |s| % 2 == 0 && from <= |s| && from % 2 == 0
    requires DecodeFrom(s, from).Ok? && k < |DecodeFrom(s, from).value|
    ensures IsHexDigit(s[from + 2 * k]) && IsHexDigit(s[from + 2 * k + 1])
    ensures DecodeFrom(s, from).value[k] == PairByte(s[from + 2 * k], s[from + 2 * k + 1])
    decreases |s| - from
  {
    if k > 0 {
      DecodeFromByte(s, from + 2, k - 1);
    }
  }

  /**
   * A failed decoding reports the first non-digit character, scanning left
   * to right, together with its index.
   */
  lemma {:induction false} DecodeFromError(s: string, from: nat)
    requires |s| % 2 == 0 && from <= |s| && from % 2 == 0
    requires DecodeFrom(s, from).Err?
    ensures var e := DecodeFrom(s, from).error;
      && e.InvalidHexCharacter?
      && from <= e.index < |s|
      && e.c == s[e.index]
      && !IsHexDigit(s[e.index])
      && forall j :: from <= j < e.index ==> IsHexDigit(s[j])
    decreases |s| - from
  {
    if IsHexDigit(s[from]) && IsHexDigit(s[from + 1]) {
      DecodeFromError(s, from + 2);
    }
  }

  /** `hex::decode`: odd length is refused before any character is looked at. */
  function Decode(s: string): (r: Result<seq<Byte>, FromHexError>)
    ensures |s| % 2 == 1 ==> r == Err(OddLength)
    ensures r.Ok? <==> |s| % 2 == 0 && forall i :: 0 <= i < |s| ==> IsHexDigit(s[i])
    ensures r.Ok? ==> |r.value| * 2 == |s|
  {
    if |s| % 2 != 0 then Err(OddLength) else DecodeFrom(s, 0)
  }

  /** Byte `k` of `Decode(s)` is the value of the digits at `2k` and `2k + 1`. */
  lemma DecodeByte(s: string, k: nat)
    requires Decode(s).Ok? && k < |Decode(s).value|
    ensures IsHexDigit(s[2 * k]) && IsHexDigit(s[2 * k + 1])
    ensures Decode(s).value[k] == PairByte(s[2 * k], s[2 * k + 1])
  {
    DecodeFromByte(s, 0, k);
  }

  /** An even-length string that is not all digits is refused at its first non-digit. */
  lemma DecodeError(s: string)
    requires |s| % 2 == 0 && Decode(s).Err?
    ensures var e := Decode(s).error;
      && e.InvalidHexCharacter?
      && e.index < |s|
      && e.c == s[e.index]
      && !IsHexDigit(s[e.index])
      && forall j :: 0 <= j < e.index ==> IsHexDigit(s[j])
  {
    DecodeFromError(s, 0);
  }

  /** Lower-case base16 encoding, two digits per byte, high nibble first. */
  function Encode(bytes: seq<Byte>): (s: string)
    ensures |s| == 2 * |bytes|
    ensures forall k :: 0 <= k < |bytes| ==>
      s[2 * k] == LOWER_DIGITS[bytes[k] / 16] && s[2 * k + 1] == LOWER_DIGITS[bytes[k] % 16]
  {
    if bytes == [] then []
    else [LOWER_DIGITS[bytes[0] / 16], LOWER_DIGITS[bytes[0] % 16]] + Encode(bytes[1..])
  }

  lemma LowerDigitValue(x: nat)
    requires x < 16
    ensures Val(LOWER_DIGITS[x]) == Some(x)
  {
  }

  /** The two digits written for a byte decode back to that byte. */
  lemma EncodedPair(b: Byte)
    ensures IsHexDigit(LOWER_DIGITS[b / 16]) && IsHexDigit(LOWER_DIGITS[b % 16])
    ensures PairByte(LOWER_DIGITS[b / 16], LOWER_DIGITS[b % 16]) == b
  {
    LowerDigitValue(b / 16);
    LowerDigitValue(b % 16);
  }

  /** Every character the encoder writes is a hexadecimal digit. */
  lemma {:induction false} EncodeDigits(bytes: seq<Byte>)
    ensures forall i :: 0 <= i < |Encode(bytes)| ==> IsHexDigit(Encode(bytes)[i])
  {
    if bytes != [] {
      EncodedPair(bytes[0]);
      EncodeDigits(bytes[1..]);
    }
  }

  /** Decoding undoes encoding: every byte string survives the round trip. */
  lemma DecodeEncode(bytes: seq<Byte>)
    ensures Decode(Encode(bytes)) == Ok(bytes)
  {
    var s := Encode(bytes);
    EncodeDigits(bytes);
    var r := Decode(s);
    assert r.Ok?;
    assert |r.value| == |bytes|;
    forall k | 0 <= k < |bytes| ensures r.value[k] == bytes[k] {
      DecodeByte(s, k);
      assert s[2 * k] == LOWER_DIGITS[bytes[k] / 16];
      assert s[2 * k + 1] == LOWER_DIGITS[bytes[k] % 16];
      EncodedPair(bytes[k]);
    }
    assert r.value == bytes;
  }
}
