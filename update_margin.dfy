/**
 * The layer-2 margin-update transaction record (L2UpdateMarginTxInfo):
 * its ordered validation, its type tag, and the canonical field sequence
 * that is handed to the Poseidon2 hash.
 *
 * The protocol bounds are defined elsewhere in the repository; here they are
 * constants of unknown value, so every result below holds whatever they are.
 * The Goldilocks constructors FromUint32/FromInt64 are opaque constructors of
 * `Elem`, and the hash is a function parameter: the model fixes which values
 * enter the hash and in which order, not what the hash computes.
 */
module UpdateMarginTx {
  import opened GoTypes

  const MinAccountIndex: Int64
  const MaxAccountIndex: Int64
  const MaxApiKeyIndex: UInt8
  const MinMarketIndex: UInt8
  const MaxMarketIndex: UInt8
  const MinNonce: Int64
  const MaxTimestamp: Int64
  const TxTypeL2UpdateMargin: UInt8

  /**
   * A Goldilocks field element, as built by the two constructors the hash input
   * uses. The constructors are kept as free terms: the reduction of an int64
   * modulo the field's prime is not modelled, so equal terms mean equal fields.
   */
  datatype Elem = FromUint32(u: UInt32) | FromInt64(i: Int64)

  datatype L2UpdateMarginTxInfo = L2UpdateMarginTxInfo(
    accountIndex: Int64,
    apiKeyIndex: UInt8,
    marketIndex: UInt8,
    usdcAmount: Int64,  // 6 decimals; negative removes margin
    direction: UInt8,   // 0 long, 1 short
    expiredAt: Int64,
    nonce: Int64,
    sig: seq<Byte>,
    signedHash: string)

  datatype TxError =
    | FromAccountIndexTooLow
    | FromAccountIndexTooHigh
    | ApiKeyIndexTooHigh
    | MarketIndexTooLow
    | MarketIndexTooHigh
    | USDCAmountIsZero
    | NonceTooLow
    | ExpiredAtInvalid

  /** Position of each check in Validate's declared order. */
  function Rank(e: TxError): nat {
    match e
    case FromAccountIndexTooLow => 0
    case FromAccountIndexTooHigh => 1
    case ApiKeyIndexTooHigh => 2
    case MarketIndexTooLow => 3
    case MarketIndexTooHigh => 4
    case USDCAmountIsZero => 5
    case NonceTooLow => 6
    case ExpiredAtInvalid => 7
  }

  /** The condition under which each error describes the record. */
  predicate Violates(tx: L2UpdateMarginTxInfo, e: TxError) {
    match e
    case FromAccountIndexTooLow => tx.accountIndex <= MinAccountIndex
    case FromAccountIndexTooHigh => tx.accountIndex > MaxAccountIndex
    case ApiKeyIndexTooHigh => tx.apiKeyIndex > MaxApiKeyIndex
    case MarketIndexTooLow => tx.marketIndex < MinMarketIndex
    case MarketIndexTooHigh => tx.marketIndex > MaxMarketIndex
    case USDCAmountIsZero => tx.usdcAmount == 0
    case NonceTooLow => tx.nonce < MinNonce
    case ExpiredAtInvalid => tx.expiredAt < 0 || tx.expiredAt > MaxTimestamp
  }

  /** Every protocol bound, written as the ranges a valid record lies in. */
  predicate WithinBounds(tx: L2UpdateMarginTxInfo) {
    && MinAccountIndex < tx.accountIndex <= MaxAccountIndex
    && tx.apiKeyIndex <= MaxApiKeyIndex
    && MinMarketIndex <= tx.marketIndex <= MaxMarketIndex
    && tx.usdcAmount != 0
    && MinNonce <= tx.nonce
    && 0 <= tx.expiredAt <= MaxTimestamp
  }

  /** Returns the first failing check in declared order, or None. */
  function Validate(tx: L2UpdateMarginTxInfo): (r: Option<TxError>)
    ensures r.None? <==> WithinBounds(tx)
    ensures r.Some? ==> Violates(tx, r.value)
    ensures r.Some? ==> forall e :: Rank(e) < Rank(r.value) ==> !Violates(tx, e)
  {
    if tx.accountIndex <= MinAccountIndex then Some(FromAccountIndexTooLow)
    else if tx.accountIndex > MaxAccountIndex then Some(FromAccountIndexTooHigh)
    else if tx.apiKeyIndex > MaxApiKeyIndex then Some(ApiKeyIndexTooHigh)
    else if tx.marketIndex < MinMarketIndex then Some(MarketIndexTooLow)
    else if tx.marketIndex > MaxMarketIndex then Some(MarketIndexTooHigh)
    else if tx.usdcAmount == 0 then Some(USDCAmountIsZero)
    else if tx.nonce < MinNonce then Some(NonceTooLow)
    else if tx.expiredAt < 0 || tx.expiredAt > MaxTimestamp then Some(ExpiredAtInvalid)
    else None
  }

  /** Being within bounds is the same as violating none of the eight checks. */
  lemma WithinBoundsIffNoViolation(tx: L2UpdateMarginTxInfo)
    ensures WithinBounds(tx) <==> forall e :: !Violates(tx, e)
  {
    if !WithinBounds(tx) {
      var r := Validate(tx);
      assert Violates(tx, r.value);
    }
  }

  /** Two errors are never both "first": the result is determined by the record. */
  lemma FirstFailureIsUnique(tx: L2UpdateMarginTxInfo, e: TxError)
    requires Violates(tx, e)
    requires forall e' :: Rank(e') < Rank(e) ==> !Violates(tx, e')
    ensures Validate(tx) == Some(e)
  {
    var r := Validate(tx);
    assert r.Some?;
    assert Rank(r.value) == Rank(e);
    match e
    case FromAccountIndexTooLow =>
    case FromAccountIndexTooHigh =>
    case ApiKeyIndexTooHigh =>
    case MarketIndexTooLow =>
    case MarketIndexTooHigh =>
    case USDCAmountIsZero =>
    case NonceTooLow =>
    case ExpiredAtInvalid =>
  }

  /** Only a zero amount is refused: a negative amount (margin removal) is as valid as a positive one. */
  lemma AmountSignIrrelevant(tx: L2UpdateMarginTxInfo, amount: Int64)
    requires tx.usdcAmount != 0 && amount != 0
    ensures Validate(tx.(usdcAmount := amount)) == Validate(tx)
  {
  }

  /** Direction is not checked, and the signature fields play no part in validation. */
  lemma ValidateIgnoresDirectionAndSignature(tx: L2UpdateMarginTxInfo, d: UInt8, sig: seq<Byte>, h: string)
    ensures Validate(tx.(direction := d, sig := sig, signedHash := h)) == Validate(tx)
  {
  }

  /** The account-index boundary: the minimum itself is refused, the next index passes. */
  lemma AccountIndexBoundary(tx: L2UpdateMarginTxInfo)
    requires WithinBounds(tx)
    requires MinAccountIndex < MaxAccountIndex
    ensures Validate(tx.(accountIndex := MinAccountIndex)) == Some(FromAccountIndexTooLow)
    ensures Validate(tx.(accountIndex := MinAccountIndex + 1)) == None
  {
  }

  function GetTxType(tx: L2UpdateMarginTxInfo): (t: UInt8)
    ensures t == TxTypeL2UpdateMargin
  {
    TxTypeL2UpdateMargin
  }

  function GetTxHash(tx: L2UpdateMarginTxInfo): (h: string)
    ensures h == tx.signedHash
  {
    tx.signedHash
  }

  /** The canonical, ordered hash input: chain id and type tag, then the signed fields. */
  function HashInput(tx: L2UpdateMarginTxInfo, chainId: UInt32): seq<Elem> {
    [ FromUint32(chainId),
      FromUint32(TxTypeL2UpdateMargin),
      FromInt64(tx.nonce),
      FromInt64(tx.expiredAt),
      FromInt64(tx.accountIndex),
      FromUint32(tx.apiKeyIndex),
      FromUint32(tx.marketIndex),
      FromUint32(tx.direction),
      FromInt64(tx.usdcAmount) ]
  }

  /** The record as it stands before signing. */
  function Unsigned(tx: L2UpdateMarginTxInfo): L2UpdateMarginTxInfo {
    tx.(sig := [], signedHash := "")
  }

  /**
   * Reads a hash input back: the chain id and the unsigned record it encodes,
   * or None when the sequence is not the input of a margin update.
   */
  function DecodeHashInput(elems: seq<Elem>): Option<(UInt32, L2UpdateMarginTxInfo)> {
    if && |elems| == 9
       && elems[0].FromUint32?
       && elems[1] == FromUint32(TxTypeL2UpdateMargin)
       && elems[2].FromInt64? && elems[3].FromInt64? && elems[4].FromInt64?
       && elems[5].FromUint32? && elems[5].u < 0x100
       && elems[6].FromUint32? && elems[6].u < 0x100
       && elems[7].FromUint32? && elems[7].u < 0x100
       && elems[8].FromInt64?
    then
      Some((elems[0].u, L2UpdateMarginTxInfo(
        accountIndex := elems[4].i,
        apiKeyIndex := elems[5].u,
        marketIndex := elems[6].u,
        usdcAmount := elems[8].i,
        direction := elems[7].u,
        expiredAt := elems[3].i,
        nonce := elems[2].i,
        sig := [],
        signedHash := "")))
    else None
  }

  /** The hash input loses nothing that is signed: decoding it gives back the chain id and the unsigned record. */
  lemma HashInputRoundTrip(tx: L2UpdateMarginTxInfo, chainId: UInt32)
    ensures DecodeHashInput(HashInput(tx, chainId)) == Some((chainId, Unsigned(tx)))
  {
  }

  /** Every sequence the decoder accepts is the hash input of what it decodes to. */
  lemma DecodedInputIsHashInput(elems: seq<Elem>)
    requires DecodeHashInput(elems).Some?
    ensures HashInput(DecodeHashInput(elems).value.1, DecodeHashInput(elems).value.0) == elems
  {
    var (c, tx) := DecodeHashInput(elems).value;
    var h := HashInput(tx, c);
    assert forall k :: 0 <= k < 9 ==> h[k] == elems[k];
  }

  /** Equal hash inputs mean the same chain and the same signed fields. */
  lemma HashInputInjective(tx1: L2UpdateMarginTxInfo, c1: UInt32, tx2: L2UpdateMarginTxInfo, c2: UInt32)
    requires HashInput(tx1, c1) == HashInput(tx2, c2)
    ensures c1 == c2 && Unsigned(tx1) == Unsigned(tx2)
  {
    HashInputRoundTrip(tx1, c1);
    HashInputRoundTrip(tx2, c2);
  }

  /** The type tag GetTxType reports is the domain separator placed second in the hash input. */
  lemma HashInputCarriesTxType(tx: L2UpdateMarginTxInfo, chainId: UInt32)
    ensures |HashInput(tx, chainId)| == 9
    ensures HashInput(tx, chainId)[..2] == [FromUint32(chainId), FromUint32(GetTxType(tx))]
  {
  }

  /**
   * Hash builds the nine elements by successive appends and hashes them.
   * The `extra` elements are accepted and never appended; no error is ever returned.
   */
  method Hash(tx: L2UpdateMarginTxInfo, lighterChainId: UInt32, extra: seq<Elem>,
              hashToQuinticExtension: seq<Elem> -> seq<Byte>)
    returns (msgHash: seq<Byte>, err: Option<string>)
    ensures msgHash == hashToQuinticExtension(HashInput(tx, lighterChainId))
    ensures err == None
  {
    var elems: seq<Elem> := [];
    elems := elems + [FromUint32(lighterChainId)];
    elems := elems + [FromUint32(TxTypeL2UpdateMargin)];
    elems := elems + [FromInt64(tx.nonce)];
    elems := elems + [FromInt64(tx.expiredAt)];
    elems := elems + [FromInt64(tx.accountIndex)];
    elems := elems + [FromUint32(tx.apiKeyIndex)];
    elems := elems + [FromUint32(tx.marketIndex)];
    elems := elems + [FromUint32(tx.direction)];
    var usdcAmountField := FromInt64(tx.usdcAmount);
    elems := elems + [usdcAmountField];
    assert elems == HashInput(tx, lighterChainId);
    msgHash := hashToQuinticExtension(elems);
    err := None;
  }
}
