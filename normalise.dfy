/**
 * The argument normalisation the sign functions apply before calling the
 * transaction builder: the -1/0 sentinels for nonce, expiry and auth deadline,
 * the transfer memo and the change-pubkey key.
 *
 * The wall clock is a parameter: `now` is the current instant in nanoseconds
 * since the Unix epoch.
 */
module Normalise {
  import opened GoTypes
  import opened Binding
  import HexUtil

  /** An instant after the epoch whose Unix nanoseconds fit an int64. */
  type Instant = n: int | 0 <= n < 0x8000_0000_0000_0000

  const NanosPerMilli := 1_000_000
  const NanosPerSecond := 1_000_000_000
  /** time.Hour * 24 * 28, in nanoseconds. */
  const OrderExpiryHorizon := 28 * 24 * 3600 * NanosPerSecond
  /** time.Hour * 7, in nanoseconds. */
  const AuthDeadlineHorizon := 7 * 3600 * NanosPerSecond

  /** The number of bytes of a transfer memo and of a change-pubkey key. */
  const MemoSize := 32
  const PubKeySize := 40

  /** `if nonce != -1 { ops.Nonce = &nonce }`: -1 leaves the nonce to the builder. */
  function NonceOption(nonce: Int64): (r: Option<Int64>)
    ensures r.None? <==> nonce == -1
    ensures r.Some? ==> r.value == nonce
  {
    if nonce != -1 then Some(nonce) else None
  }

  /** The argument a caller passes for a nonce option: -1 for "let the builder choose". */
  function NonceArgument(nonce: Option<Int64>): Int64 {
    nonce.GetOr(-1)
  }

  /** Every nonce argument survives the trip to an option and back. */
  lemma NonceArgumentRoundTrip(nonce: Int64)
    ensures NonceArgument(NonceOption(nonce)) == nonce
  {
  }

  /** Every option except an explicit -1 survives the trip to an argument and back. */
  lemma NonceOptionRoundTrip(nonce: Option<Int64>)
    requires nonce != Some(-1)
    ensures NonceOption(NonceArgument(nonce)) == nonce
  {
  }

  /** time.Now().Add(28 days).UnixMilli(). */
  function DefaultOrderExpiry(now: Instant): (r: Int64)
    ensures r == now / NanosPerMilli + 28 * 24 * 3600 * 1000
  {
    (now + OrderExpiryHorizon) / NanosPerMilli
  }

  /** An order expiry of -1 becomes 28 days from now in milliseconds; any other value is kept. */
  function OrderExpiry(orderExpiry: Int64, now: Instant): (r: Int64)
    ensures orderExpiry != -1 ==> r == orderExpiry
    ensures orderExpiry == -1 ==> r == DefaultOrderExpiry(now)
    ensures r != -1
  {
    if orderExpiry == -1 then DefaultOrderExpiry(now) else orderExpiry
  }

  /** Normalising an expiry twice, at any two instants, is normalising it once. */
  lemma OrderExpiryIdempotent(orderExpiry: Int64, now: Instant, later: Instant)
    ensures OrderExpiry(OrderExpiry(orderExpiry, now), later) == OrderExpiry(orderExpiry, now)
  {
  }

  /** time.Now().Add(7 hours).Unix(). */
  function DefaultAuthDeadline(now: Instant): (r: Int64)
    ensures r == now / NanosPerSecond + 7 * 3600
  {
    (now + AuthDeadlineHorizon) / NanosPerSecond
  }

  /** An auth deadline of 0 becomes 7 hours from now in seconds; any other value is kept. */
  function AuthDeadline(deadline: Int64, now: Instant): (r: Int64)
    ensures deadline != 0 ==> r == deadline
    ensures deadline == 0 ==> r == DefaultAuthDeadline(now)
    ensures r != 0
  {
    if deadline == 0 then DefaultAuthDeadline(now) else deadline
  }

  /** `if expiredAt != -1 { ops.ExpiredAt = expiredAt }`: -1 leaves the option at its zero value. */
  function ExpiredAtOption(expiredAt: Int64): (r: Int64)
    ensures expiredAt != -1 ==> r == expiredAt
    ensures expiredAt == -1 ==> r == 0
  {
    if expiredAt != -1 then expiredAt else 0
  }

  /** Go's copy(dst, src) on byte slices: min(len(dst), len(src)) bytes from the front of src. */
  function CopyBytes(dst: seq<Byte>, src: seq<Byte>): (r: seq<Byte>)
    ensures |r| == |dst|
    ensures forall i :: 0 <= i < |dst| ==> r[i] == if i < |src| then src[i] else dst[i]
    ensures |src| == |dst| ==> r == src
  {
    if |src| >= |dst| then src[..|dst|] else src + dst[|src|..]
  }

  /** copy(dst[:], src) into a fixed-size Go array, in place; returns the number of bytes copied. */
  method CopyInto(dst: array<Byte>, src: seq<Byte>) returns (n: nat)
    modifies dst
    ensures n == if |src| < dst.Length then |src| else dst.Length
    ensures dst[..] == CopyBytes(old(dst[..]), src)
  {
    n := if |src| < dst.Length then |src| else dst.Length;
    var i := 0;
    while i < n
      invariant 0 <= i <= n
      invariant forall j :: 0 <= j < i ==> dst[j] == src[j]
      invariant forall j :: i <= j < dst.Length ==> dst[j] == old(dst[j])
    {
      dst[i] := src[i];
      i := i + 1;
    }
  }

  /**
   * The transfer memo: the empty string is 32 zero bytes; otherwise exactly
   * 64 hex digits (no prefix) giving 32 bytes.
   */
  function ParseMemo(memoStr: seq<Byte>): (r: Result<seq<Byte>, BindingError>)
    ensures r.Ok? ==> |r.value| == MemoSize
    ensures memoStr == [] ==> r == Ok(Zeros(MemoSize))
    ensures memoStr != [] && |memoStr| != 64 ==> r == Err(MemoWrongLength)
    ensures |memoStr| == 64 && HexUtil.AllDigits(memoStr) ==> r.Ok?
    ensures |memoStr| == 64 && HexUtil.AllDigits(memoStr) ==> forall i :: 0 <= i < MemoSize ==>
              r.value[i] == 16 * HexUtil.DigitValue(memoStr[2 * i]).value + HexUtil.DigitValue(memoStr[2 * i + 1]).value
    ensures |memoStr| == 64 && !HexUtil.AllDigits(memoStr) ==> r == Err(InvalidHexMemo(HexUtil.Syntax))
  {
    if memoStr == [] then Ok(Zeros(MemoSize))
    else if |memoStr| != 64 then Err(MemoWrongLength)
    else
      var input := HexUtil.Prefix + memoStr;
      assert input[2..] == memoStr;
      match HexUtil.Decode(input)
      case Err(e) => Err(InvalidHexMemo(e))
      case Ok(memoBytes) =>
        if |memoBytes| != MemoSize then Err(MemoNot32Bytes(|memoBytes|))
        else Ok(CopyBytes(Zeros(MemoSize), memoBytes))
  }

  /** The "must be exactly 32 bytes" error is unreachable: 64 hex digits always decode to 32 bytes. */
  lemma MemoSizeErrorUnreachable(memoStr: seq<Byte>)
    ensures !(ParseMemo(memoStr).Err? && ParseMemo(memoStr).error.MemoNot32Bytes?)
  {
  }

  /** Round trip: the hex text of any 32 bytes parses back to those bytes. */
  lemma MemoRoundTrip(memo: seq<Byte>)
    requires |memo| == MemoSize
    ensures ParseMemo(HexUtil.Encode(memo)) == Ok(memo)
  {
    var memoStr := HexUtil.Encode(memo);
    HexUtil.DecodeEncode(memo);
    assert HexUtil.Decode(HexUtil.Prefix + memoStr) == Ok(memo);
  }

  /** A number passed as the memo is rejected for its length. */
  lemma NumberMemoRejected(n: Int64)
    ensures ParseMemo(StringOf(Number(n))) == Err(MemoWrongLength)
  {
    NumberRenderingIsShort(n);
  }

  /** The change-pubkey key: "0x"-prefixed hex that must decode to exactly 40 bytes. */
  function ParsePubKey(pubKeyStr: seq<Byte>): (r: Result<seq<Byte>, BindingError>)
    ensures HexUtil.Decode(pubKeyStr).Err? ==> r == Err(InvalidPubKeyFormat(HexUtil.Decode(pubKeyStr).error))
    ensures HexUtil.Decode(pubKeyStr).Ok? && |HexUtil.Decode(pubKeyStr).value| != PubKeySize ==>
              r == Err(InvalidPubKeyLength(|HexUtil.Decode(pubKeyStr).value|))
    ensures r.Ok? ==> |r.value| == PubKeySize && |pubKeyStr| == 2 + 2 * PubKeySize
    ensures r.Ok? <==> HexUtil.Decode(pubKeyStr).Ok? && |HexUtil.Decode(pubKeyStr).value| == PubKeySize
    ensures r.Ok? ==> HexUtil.Decode(pubKeyStr) == Ok(r.value)
  {
    match HexUtil.Decode(pubKeyStr)
    case Err(e) => Err(InvalidPubKeyFormat(e))
    case Ok(pubKeyBytes) =>
      if |pubKeyBytes| != PubKeySize then Err(InvalidPubKeyLength(|pubKeyBytes|))
      else Ok(CopyBytes(Zeros(PubKeySize), pubKeyBytes))
  }

  /** Round trip: the prefixed hex of any 40-byte key parses back to that key. */
  lemma PubKeyRoundTrip(key: seq<Byte>)
    requires |key| == PubKeySize
    ensures ParsePubKey(HexUtil.Prefix + HexUtil.Encode(key)) == Ok(key)
  {
    HexUtil.DecodeEncode(key);
  }
}
