/**
 * Hex decoding as the binding layer uses it: go-ethereum's `hexutil.Decode`,
 * which demands a "0x"/"0X" prefix and an even number of hex digits, over the
 * bytes of a Go string. `Encode` (lower-case digits, no prefix) is a right
 * inverse of it; upper-case digits decode to the same bytes as lower-case ones.
 */
module HexUtil {
  import opened GoTypes

  /** The error kinds `hexutil.Decode` distinguishes. */
  datatype HexError = EmptyString | MissingPrefix | OddLength | Syntax

  const Zero: Byte := 48   // '0'
  const LowerX: Byte := 120 // 'x'
  const UpperX: Byte := 88  // 'X'

  /** The "0x" prefix, as bytes. */
  const Prefix: seq<Byte> := [Zero, LowerX]

  /** Value of a hex digit ('0'-'9', 'a'-'f', 'A'-'F'), or None for any other byte. */
  function DigitValue(c: Byte): (r: Option<nat>)
    ensures r.Some? ==> r.value < 16
  {
    if 48 <= c <= 57 then Some(c - 48)
    else if 97 <= c <= 102 then Some(c - 87)
    else if 65 <= c <= 70 then Some(c - 55)
    else None
  }

  predicate AllDigits(s: seq<Byte>) {
    forall i :: 0 <= i < |s| ==> DigitValue(s[i]).Some?
  }

  predicate Has0xPrefix(s: seq<Byte>) {
    |s| >= 2 && s[0] == Zero && (s[1] == LowerX || s[1] == UpperX)
  }

  /** Pairs of digits, high nibble first, to bytes. */
  function DecodePairs(s: seq<Byte>): (r: seq<Byte>)
    requires |s| % 2 == 0 && AllDigits(s)
    ensures 2 * |r| == |s|
    ensures forall i :: 0 <= i < |r| ==> r[i] == 16 * DigitValue(s[2 * i]).value + DigitValue(s[2 * i + 1]).value
    decreases |s|
  {
    if s == [] then []
    else
      var hi := DigitValue(s[0]).value;
      var lo := DigitValue(s[1]).value;
      [hi * 16 + lo] + DecodePairs(s[2..])
  }

  /**
   * hexutil.Decode: empty input, a missing prefix, a non-hex byte (anywhere,
   * even in an odd-length input) and an odd digit count are refused in that order.
   */
  function Decode(input: seq<Byte>): (r: Result<seq<Byte>, HexError>)
    ensures r.Ok? ==> |input| == 2 + 2 * |r.value|
    ensures r == Err(EmptyString) <==> input == []
    ensures r == Err(MissingPrefix) <==> input != [] && !Has0xPrefix(input)
    ensures Has0xPrefix(input) && !AllDigits(input[2..]) ==> r == Err(Syntax)
    ensures Has0xPrefix(input) && AllDigits(input[2..]) && |input| % 2 == 1 ==> r == Err(OddLength)
    ensures r.Ok? <==> Has0xPrefix(input) && AllDigits(input[2..]) && |input| % 2 == 0
    ensures r.Ok? ==> forall i :: 0 <= i < |r.value| ==>
              r.value[i] == 16 * DigitValue(input[2 + 2 * i]).value + DigitValue(input[3 + 2 * i]).value
  {
    if |input| == 0 then Err(EmptyString)
    else if !Has0xPrefix(input) then Err(MissingPrefix)
    else if !AllDigits(input[2..]) then Err(Syntax)
    else if |input[2..]| % 2 == 1 then Err(OddLength)
    else Ok(DecodePairs(input[2..]))
  }

  function Digit(n: nat): (c: Byte)
    requires n < 16
    ensures DigitValue(c) == Some(n)
  {
    if n < 10 then 48 + n else 87 + n
  }

  /** Lower-case hex digits of the bytes, without prefix. */
  function Encode(b: seq<Byte>): (s: seq<Byte>)
    ensures |s| == 2 * |b|
    ensures AllDigits(s)
  {
    if b == [] then []
    else [Digit(b[0] / 16), Digit(b[0] % 16)] + Encode(b[1..])
  }

  lemma {:induction false} DecodePairsEncode(b: seq<Byte>)
    ensures DecodePairs(Encode(b)) == b
  {
    if b != [] {
      var s := Encode(b);
      assert s[2..] == Encode(b[1..]);
      DecodePairsEncode(b[1..]);
    }
  }

  /** Round trip: decoding the prefixed encoding gives back the bytes. */
  lemma DecodeEncode(b: seq<Byte>)
    ensures Decode(Prefix + Encode(b)) == Ok(b)
  {
    var s := Prefix + Encode(b);
    assert s[2..] == Encode(b);
    assert Has0xPrefix(s) && AllDigits(s[2..]) && |s| % 2 == 0;
    DecodePairsEncode(b);
    assert Decode(s) == Ok(DecodePairs(s[2..]));
  }
}
