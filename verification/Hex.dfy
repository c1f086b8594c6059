/** Nonces and the hexadecimal spellings that carry nonces and signatures on the wire. */
module Hex {
  import opened Base

  const NONCE_LEN: nat := 32

  type Nonce = s: seq<u8> | |s| == NONCE_LEN witness seq(NONCE_LEN, _ => 0)

  function HexDigit(d: nat): char
    requires d < 16
  {
    if d < 10 then ('0' as int + d) as char else ('a' as int + d - 10) as char
  }

  /** `char::to_digit(16)`: either case is a digit. */
  function DigitValue(c: char): (v: Option<nat>)
    ensures v.Some? ==> v.value < 16
  {
    if '0' <= c <= '9' then Some(c as int - '0' as int)
    else if 'a' <= c <= 'f' then Some(c as int - 'a' as int + 10)
    else if 'A' <= c <= 'F' then Some(c as int - 'A' as int + 10)
    else None
  }

  predicate IsLowerHex(s: string) {
    forall i :: 0 <= i < |s| ==> '0' <= s[i] <= '9' || 'a' <= s[i] <= 'f'
  }

  function ToHex(bytes: seq<u8>): (s: string)
    ensures |s| == 2 * |bytes|
    ensures IsLowerHex(s)
  {
    if bytes == [] then "" else [HexDigit(bytes[0] / 16), HexDigit(bytes[0] % 16)] + ToHex(bytes[1..])
  }

  /** Two characters as one byte. With `signed`, as `u8::from_str_radix`: a leading `+` counts as a sign. */
  function ParseByte(first: char, second: char, signed: bool): Option<u8> {
    var lo :- DigitValue(second);
    if signed && first == '+' then Some(lo)
    else
      var hi :- DigitValue(first);
      Some(16 * hi + lo)
  }

  function ParsePairs(s: string, signed: bool): (r: Option<seq<u8>>)
    requires |s| % 2 == 0
    ensures r.Some? ==> 2 * |r.value| == |s|
  {
    if s == [] then Some([])
    else
      var b :- ParseByte(s[0], s[1], signed);
      var rest :- ParsePairs(s[2..], signed);
      Some([b] + rest)
  }

  function FromHex(s: string): Option<Nonce> {
    if |s| != 2 * NONCE_LEN then None else ParsePairs(s, true)
  }

  /** `decode_hex`: plain digit pairs of any even length, no sign. */
  function DecodeHex(s: string): Option<seq<u8>> {
    if |s| % 2 != 0 then None else ParsePairs(s, false)
  }

  // ----- The loops -----

  function Prefixed(front: seq<u8>, r: Option<seq<u8>>): Option<seq<u8>> {
    if r.None? then None else Some(front + r.value)
  }

  lemma PrefixedEnds(bytes: seq<u8>, r: Option<seq<u8>>)
    ensures Prefixed([], r) == r && Prefixed(bytes, Some([])) == Some(bytes)
  {
    if r.Some? {
      assert [] + r.value == r.value;
    }
    assert bytes + [] == bytes;
  }

  lemma PrefixedTwice(front: seq<u8>, next: seq<u8>, r: Option<seq<u8>>)
    ensures Prefixed(front, Prefixed(next, r)) == Prefixed(front + next, r)
  {
    if r.Some? {
      assert front + (next + r.value) == front + next + r.value;
    }
  }

  method EncodeNonce(nonce: Nonce) returns (s: string)
    ensures s == ToHex(nonce)
  {
    s := "";
    for i := 0 to |nonce|
      invariant s + ToHex(nonce[i..]) == ToHex(nonce)
    {
      s := s + [HexDigit(nonce[i] / 16), HexDigit(nonce[i] % 16)];
      assert nonce[i..][1..] == nonce[i + 1..];
    }
  }

  method DecodeNonce(s: string) returns (nonce: Option<Nonce>)
    ensures nonce == FromHex(s)
  {
    if |s| != 2 * NONCE_LEN {
      return None;
    }
    var bytes: seq<u8> := [];
    assert s[0..] == s;
    PrefixedEnds([], ParsePairs(s, true));
    for i := 0 to NONCE_LEN
      invariant |bytes| == i
      invariant ParsePairs(s, true) == Prefixed(bytes, ParsePairs(s[2 * i..], true))
    {
      assert s[2 * i..][2..] == s[2 * (i + 1)..];
      match ParseByte(s[2 * i], s[2 * i + 1], true)
      case None => return None;
      case Some(b) =>
        PrefixedTwice(bytes, [b], ParsePairs(s[2 * (i + 1)..], true));
        bytes := bytes + [b];
    }
    PrefixedEnds(bytes, None);
    return Some(bytes);
  }

  method DecodeSignature(s: string) returns (bytes: Option<seq<u8>>)
    ensures bytes == DecodeHex(s)
  {
    if |s| % 2 != 0 {
      return None;
    }
    var out: seq<u8> := [];
    var i := 0;
    assert s[0..] == s;
    PrefixedEnds([], ParsePairs(s, false));
    while i < |s|
      invariant 0 <= i <= |s| && i % 2 == 0
      invariant ParsePairs(s, false) == Prefixed(out, ParsePairs(s[i..], false))
    {
      assert s[i..][2..] == s[i + 2..];
      var hi, lo := DigitValue(s[i]), DigitValue(s[i + 1]);
      if hi.None? || lo.None? {
        return None;
      }
      PrefixedTwice(out, [16 * hi.value + lo.value], ParsePairs(s[i + 2..], false));
      out := out + [16 * hi.value + lo.value];
      i := i + 2;
    }
    PrefixedEnds(out, None);
    return Some(out);
  }

  // ----- Round trips -----

  lemma DigitRoundTrip(d: nat)
    requires d < 16
    ensures DigitValue(HexDigit(d)) == Some(d) && HexDigit(d) != '+'
  {
  }

  lemma ByteRoundTrip(b: u8, signed: bool)
    ensures ParseByte(HexDigit(b / 16), HexDigit(b % 16), signed) == Some(b)
  {
    DigitRoundTrip(b / 16);
    DigitRoundTrip(b % 16);
  }

  lemma LowerDigitRoundTrip(c: char)
    requires '0' <= c <= '9' || 'a' <= c <= 'f'
    ensures DigitValue(c).Some? && HexDigit(DigitValue(c).value) == c
  {
  }

  lemma ToHexSplits(bytes: seq<u8>)
    requires bytes != []
    ensures var s := ToHex(bytes);
            s[0] == HexDigit(bytes[0] / 16) && s[1] == HexDigit(bytes[0] % 16) && s[2..] == ToHex(bytes[1..])
  {
    assert ToHex(bytes)[2..] == ToHex(bytes[1..]);
  }

  lemma {:induction false} PairsRoundTrip(bytes: seq<u8>, signed: bool)
    ensures ParsePairs(ToHex(bytes), signed) == Some(bytes)
  {
    if bytes != [] {
      ByteRoundTrip(bytes[0], signed);
      ToHexSplits(bytes);
      PairsRoundTrip(bytes[1..], signed);
      assert bytes == [bytes[0]] + bytes[1..];
    }
  }

  /** A signature written in hexadecimal is read back byte for byte. */
  lemma SignatureRoundTrip(bytes: seq<u8>)
    ensures DecodeHex(ToHex(bytes)) == Some(bytes)
  {
    PairsRoundTrip(bytes, false);
  }

  /** The wire spelling of a nonce reads back as that nonce. */
  lemma NonceRoundTrip(nonce: Nonce)
    ensures FromHex(ToHex(nonce)) == Some(nonce)
  {
    PairsRoundTrip(nonce, true);
  }

  lemma LowerPairInverts(first: char, second: char)
    requires IsLowerHex([first, second])
    ensures ParseByte(first, second, true).Some?
    ensures var b := ParseByte(first, second, true).value; HexDigit(b / 16) == first && HexDigit(b % 16) == second
  {
    assert [first, second][0] == first && [first, second][1] == second;
    LowerDigitRoundTrip(first);
    LowerDigitRoundTrip(second);
    var hi, lo := DigitValue(first).value, DigitValue(second).value;
    assert (16 * hi + lo) / 16 == hi && (16 * hi + lo) % 16 == lo;
  }

  lemma {:induction false} LowerPairsInvert(s: string)
    requires |s| % 2 == 0 && IsLowerHex(s)
    ensures ParsePairs(s, true).Some? && ToHex(ParsePairs(s, true).value) == s
  {
    if s != [] {
      LowerPairsInvert(s[2..]);
      LowerPairInverts(s[0], s[1]);
      var b, rest := ParseByte(s[0], s[1], true).value, ParsePairs(s[2..], true).value;
      hide ParseByte;
      hide HexDigit;
      assert ParsePairs(s, true) == Some([b] + rest);
      assert ([b] + rest)[1..] == rest;
      assert s == [s[0], s[1]] + s[2..];
    }
  }

  /** Reading is the inverse of writing on exactly the lower-case spellings; `FromHex` also accepts
      upper-case digits and a `+` in place of a leading zero, and those never read back. */
  lemma LowerCaseIsTheOnlySpelling(s: string, nonce: Nonce)
    ensures FromHex(s) == Some(nonce) && IsLowerHex(s) <==> s == ToHex(nonce)
  {
    NonceRoundTrip(nonce);
    if FromHex(s) == Some(nonce) && IsLowerHex(s) {
      LowerPairsInvert(s);
    }
  }

  /** A spelling that is accepted and is not the one written: `+` for the leading zero of the first byte. */
  lemma SignedSpellingAccepted(nonce: Nonce)
    requires nonce[0] < 16
    ensures var s := ['+'] + ToHex(nonce)[1..]; s != ToHex(nonce) && FromHex(s) == Some(nonce)
  {
    NonceRoundTrip(nonce);
    var s := ['+'] + ToHex(nonce)[1..];
    assert s[2..] == ToHex(nonce)[2..];
  }

  // ----- The spelling itself -----

  /** Each byte is two lower-case digits, the high one first. */
  lemma {:induction false} ToHexSpells(bytes: seq<u8>, i: nat)
    requires i < |bytes|
    ensures ToHex(bytes)[2 * i] == "0123456789abcdef"[bytes[i] / 16]
    ensures ToHex(bytes)[2 * i + 1] == "0123456789abcdef"[bytes[i] % 16]
  {
    ToHexSplits(bytes);
    if i == 0 {
      DigitSpelling(bytes[0] / 16);
      DigitSpelling(bytes[0] % 16);
    } else {
      ToHexSpells(bytes[1..], i - 1);
      assert ToHex(bytes)[2..][2 * (i - 1)] == ToHex(bytes)[2 * i];
      assert ToHex(bytes)[2..][2 * (i - 1) + 1] == ToHex(bytes)[2 * i + 1];
    }
  }

  lemma DigitSpelling(d: nat)
    requires d < 16
    ensures HexDigit(d) == "0123456789abcdef"[d]
  {
  }

  /** A character is read as a digit exactly when it is that digit's spelling in either case. */
  lemma DigitsInEitherCase(c: char, v: nat)
    requires v < 16
    ensures DigitValue(c) == Some(v) <==> c == "0123456789abcdef"[v] || c == "0123456789ABCDEF"[v]
  {
  }

  predicate IsHexDigit(c: char) {
    '0' <= c <= '9' || 'a' <= c <= 'f' || 'A' <= c <= 'F'
  }

  /** Two characters that stand for a byte: digits in either case, or a sign where one counts and a digit. */
  predicate IsPair(first: char, second: char, signed: bool) {
    IsHexDigit(second) && (IsHexDigit(first) || (signed && first == '+'))
  }

  ghost predicate AllPairs(s: string, signed: bool) {
    forall i :: 0 <= i < |s| / 2 ==> IsPair(s[2 * i], s[2 * i + 1], signed)
  }

  lemma AllPairsSplit(s: string, signed: bool)
    requires |s| % 2 == 0 && s != []
    ensures AllPairs(s, signed) <==> IsPair(s[0], s[1], signed) && AllPairs(s[2..], signed)
  {
    hide IsPair;
    if AllPairs(s, signed) {
      assert IsPair(s[2 * 0], s[2 * 0 + 1], signed);
      forall i | 0 <= i < |s[2..]| / 2 ensures IsPair(s[2..][2 * i], s[2..][2 * i + 1], signed) {
        assert IsPair(s[2 * (i + 1)], s[2 * (i + 1) + 1], signed);
      }
    }
    if IsPair(s[0], s[1], signed) && AllPairs(s[2..], signed) {
      forall i | 0 <= i < |s| / 2 ensures IsPair(s[2 * i], s[2 * i + 1], signed) {
        if i > 0 {
          assert IsPair(s[2..][2 * (i - 1)], s[2..][2 * (i - 1) + 1], signed);
        }
      }
    }
  }

  /** A pair is read as sixteen times its first digit, a sign counting nothing, plus its second. */
  lemma ByteRead(first: char, second: char, signed: bool)
    ensures ParseByte(first, second, signed).Some? <==> IsPair(first, second, signed)
    ensures ParseByte(first, second, signed).Some? ==>
              DigitValue(second).Some?
              && ParseByte(first, second, signed).value ==
                 (if DigitValue(first).Some? then 16 * DigitValue(first).value else 0) + DigitValue(second).value
  {
  }

  /** Pairs are read exactly when all of them are pairs, and byte by byte. */
  lemma {:induction false} PairsRead(s: string, signed: bool)
    requires |s| % 2 == 0
    ensures ParsePairs(s, signed).Some? <==> AllPairs(s, signed)
    ensures ParsePairs(s, signed).Some? ==>
              forall i :: 0 <= i < |s| / 2 ==>
                Some(ParsePairs(s, signed).value[i]) == ParseByte(s[2 * i], s[2 * i + 1], signed)
  {
    hide IsPair;
    hide ParseByte;
    hide AllPairs;
    if s == [] {
      NoPairs(signed);
    } else {
      PairsRead(s[2..], signed);
      ByteRead(s[0], s[1], signed);
      AllPairsSplit(s, signed);
      if ParsePairs(s, signed).Some? {
        forall i | 0 < i < |s| / 2 ensures s[2..][2 * (i - 1)] == s[2 * i] && s[2..][2 * (i - 1) + 1] == s[2 * i + 1] {
        }
      }
    }
  }

  lemma NoPairs(signed: bool)
    ensures AllPairs([], signed)
  {
  }

  /** What is accepted as a nonce and as a signature: 64 characters of pairs whose first may be a sign, and any even
      number of digits; every byte is what its own pair says. */
  lemma AcceptedSpellings(s: string)
    ensures FromHex(s).Some? <==> |s| == 64 && AllPairs(s, true)
    ensures DecodeHex(s).Some? <==> |s| % 2 == 0 && forall i :: 0 <= i < |s| ==> IsHexDigit(s[i])
    ensures FromHex(s).Some? ==>
              forall i :: 0 <= i < 32 ==> Some(FromHex(s).value[i]) == ParseByte(s[2 * i], s[2 * i + 1], true)
    ensures DecodeHex(s).Some? ==>
              forall i :: 0 <= i < |s| / 2 ==> Some(DecodeHex(s).value[i]) == ParseByte(s[2 * i], s[2 * i + 1], false)
  {
    hide ParseByte;
    hide ParsePairs;
    hide IsHexDigit;
    if |s| % 2 == 0 {
      PairsRead(s, true);
      PairsRead(s, false);
      UnsignedPairs(s);
    }
  }

  lemma UnsignedPairs(s: string)
    requires |s| % 2 == 0
    ensures AllPairs(s, false) <==> forall i :: 0 <= i < |s| ==> IsHexDigit(s[i])
  {
    hide IsHexDigit;
    if AllPairs(s, false) {
      forall i | 0 <= i < |s| ensures IsHexDigit(s[i]) {
        assert IsPair(s[2 * (i / 2)], s[2 * (i / 2) + 1], false);
      }
    }
  }
}
