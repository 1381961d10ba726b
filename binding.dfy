/**
 * The WebAssembly binding layer's view of its inputs and outputs: JavaScript
 * argument values, the `validateArg` check, the argument-list check every
 * exported function runs, the conversions `Value.Int()`/`Value.String()`
 * followed by Go's integer casts, and the reply an exported function gives.
 */
module Binding {
  import opened GoTypes
  import HexUtil

  /**
   * A JavaScript argument. Numbers are integers within int64; a string is held
   * as the UTF-8 bytes Go receives; any other JavaScript value (boolean,
   * object, function, ...) carries the text `Value.String()` renders for it.
   */
  datatype JsValue = Null | Undefined | Number(n: Int64) | Str(s: seq<Byte>) | Other(rendering: seq<Byte>)

  /** A signing client as the binding layer sees it: the indices it reports, and an opaque identity. */
  datatype TxClient = TxClient(handle: nat, apiKeyIndex: UInt8, accountIndex: Int64, chainId: UInt32)

  /** The error texts the exported functions return, one constructor per message. */
  datatype BindingError =
    | WrongArgCount(exported: string)
    | MissingArgument(argName: string, index: nat)
    | ArgumentNull(argName: string)
    | ArgumentUndefined(argName: string)
    | NoArgumentsProvided
    | Panicked
    | InvalidAccountIndex
    | CreateClientFailed(reason: string)
    | ApiKeyNotRegistered
    | ApiKeyIndexMismatch(storedKey: UInt8, givenKey: UInt8)
    | AccountIndexMismatch(storedAccount: Int64, givenAccount: Int64)
    | NoClientForApiKey
    | ClientNotCreated
    | InvalidPubKeyFormat(hexError: HexUtil.HexError)
    | InvalidPubKeyLength(pubKeyLength: int)
    | MemoWrongLength
    | InvalidHexMemo(hexError: HexUtil.HexError)
    | MemoNot32Bytes(memoLength: int)
    | OrdersJsonInvalid
    | GroupedOrdersCount

  /**
   * What an exported function hands back: a result, an error, or nothing at all
   * when a conversion panicked and the deferred recover swallowed the panic
   * (the function then returns nil, which JavaScript receives as null).
   */
  datatype Reply<+T> = Success(value: T) | Failure(err: BindingError) | Aborted

  /** validateArg: missing, then null, then undefined. */
  function ValidateArg(args: seq<JsValue>, index: nat, argName: string): (r: Option<BindingError>)
    ensures r == Some(MissingArgument(argName, index)) <==> index >= |args|
    ensures r == Some(ArgumentNull(argName)) <==> index < |args| && args[index].Null?
    ensures r == Some(ArgumentUndefined(argName)) <==> index < |args| && args[index].Undefined?
    ensures r.None? <==> index < |args| && !args[index].Null? && !args[index].Undefined?
  {
    if index >= |args| then Some(MissingArgument(argName, index))
    else if args[index].Null? then Some(ArgumentNull(argName))
    else if args[index].Undefined? then Some(ArgumentUndefined(argName))
    else None
  }

  /** The arguments named from position k on all pass validateArg. */
  predicate ArgsValidFrom(args: seq<JsValue>, names: seq<string>, k: nat) {
    forall i :: k <= i < |names| ==> ValidateArg(args, i, names[i]).None?
  }

  /**
   * Validates the named arguments from position k on, in order, and returns
   * the error of the first one that fails.
   */
  function FirstArgErrorFrom(args: seq<JsValue>, names: seq<string>, k: nat): (r: Option<BindingError>)
    ensures r.None? <==> ArgsValidFrom(args, names, k)
    ensures r.Some? ==> exists i :: k <= i < |names| && r == ValidateArg(args, i, names[i]) && ArgsValidBetween(args, names, k, i)
    decreases |names| - k
  {
    if k >= |names| then None
    else
      var e := ValidateArg(args, k, names[k]);
      if e.Some? then e else FirstArgErrorFrom(args, names, k + 1)
  }

  /** The arguments at positions k..i-1 all pass validateArg. */
  predicate ArgsValidBetween(args: seq<JsValue>, names: seq<string>, k: nat, i: nat)
    requires i <= |names|
  {
    forall j :: k <= j < i ==> ValidateArg(args, j, names[j]).None?
  }

  /** The error of the first named argument that fails validateArg, or None. */
  function FirstArgError(args: seq<JsValue>, names: seq<string>): Option<BindingError> {
    FirstArgErrorFrom(args, names, 0)
  }

  /** Once the count matches, no argument can be missing: every error is a null or undefined one. */
  lemma FirstArgErrorNeverMissing(args: seq<JsValue>, names: seq<string>)
    requires |args| == |names|
    ensures FirstArgError(args, names).Some? ==>
              FirstArgError(args, names).value.ArgumentNull? || FirstArgError(args, names).value.ArgumentUndefined?
  {
  }

  /** The loop over argNames (signCreateOrder): returns at the first argument that fails. */
  method ValidateArgs(args: seq<JsValue>, argNames: seq<string>) returns (err: Option<BindingError>)
    ensures err == FirstArgError(args, argNames)
  {
    var i := 0;
    while i < |argNames|
      invariant 0 <= i <= |argNames|
      invariant FirstArgError(args, argNames) == FirstArgErrorFrom(args, argNames, i)
    {
      var e := ValidateArg(args, i, argNames[i]);
      if e.Some? {
        return e;
      }
      i := i + 1;
    }
    return None;
  }

  /**
   * The check every exported sign function opens with: the argument count,
   * then each argument in order, then that a client has been created.
   */
  function Preamble(txClient: Option<TxClient>, exported: string, args: seq<JsValue>, names: seq<string>): (r: Option<BindingError>)
    ensures |args| != |names| ==> r == Some(WrongArgCount(exported))
    ensures |args| == |names| && FirstArgError(args, names).Some? ==> r == FirstArgError(args, names)
    ensures r == Some(ClientNotCreated) <==> |args| == |names| && ArgsValidFrom(args, names, 0) && txClient.None?
    ensures r.None? <==> |args| == |names| && ArgsValidFrom(args, names, 0) && txClient.Some?
    ensures r.Some? ==> !r.value.MissingArgument?
  {
    if |args| != |names| then Some(WrongArgCount(exported))
    else
      var e := FirstArgError(args, names);
      if e.Some? then e
      else if txClient.None? then Some(ClientNotCreated)
      else None
  }

  /** `Value.Int()`: the number, or None where Go panics (the value is not a number). */
  function IntOf(v: JsValue): (r: Option<Int64>)
    ensures r.Some? <==> v.Number?
    ensures r.Some? ==> r.value == v.n
  {
    if v.Number? then Some(v.n) else None
  }

  /** Decimal digits of a natural number, as ASCII bytes. */
  function Digits(n: nat): (r: seq<Byte>)
    ensures |r| >= 1
    ensures forall i :: 0 <= i < |r| ==> 48 <= r[i] <= 57
  {
    if n < 10 then [48 + n] else Digits(n / 10) + [48 + n % 10]
  }

  /** The natural number a run of ASCII decimal digits denotes. */
  function DigitsValue(s: seq<Byte>): nat
    requires forall i :: 0 <= i < |s| ==> 48 <= s[i] <= 57
  {
    if s == [] then 0 else 10 * DigitsValue(s[..|s| - 1]) + (s[|s| - 1] - 48)
  }

  /** The digits Digits produces denote the number they were produced from. */
  lemma {:induction false} DigitsDenote(n: nat)
    ensures DigitsValue(Digits(n)) == n
  {
    if n >= 10 {
      var d := Digits(n);
      assert d[..|d| - 1] == Digits(n / 10);
      DigitsDenote(n / 10);
    }
  }

  /** JavaScript's String(n) for an integer. */
  function Decimal(n: int): seq<Byte> {
    if n < 0 then [45] + Digits(-n) else Digits(n)
  }

  /** "<number: ", the text Value.String() puts before a number. */
  const NumberTag: seq<Byte> := [60, 110, 117, 109, 98, 101, 114, 58, 32]

  /** `Value.String()`: the string's bytes, or a rendering such as "<number: 5>" for other values. */
  function StringOf(v: JsValue): (r: seq<Byte>)
    ensures v.Str? ==> r == v.s
    ensures v.Other? ==> r == v.rendering
    ensures v.Number? ==> |r| >= 11 && r[..9] == NumberTag && r[9..|r| - 1] == Decimal(v.n) && r[|r| - 1] == 62
  {
    match v
    case Str(s) => s
    case Number(n) => NumberTag + Decimal(n) + [62]  // "<number: " n ">"
    case Null => [60, 110, 117, 108, 108, 62]  // "<null>"
    case Undefined => [60, 117, 110, 100, 101, 102, 105, 110, 101, 100, 62]  // "<undefined>"
    case Other(r) => r
  }

  /** The decimal rendering reads back as the number: a minus sign for negatives, then the digits of the magnitude. */
  lemma DecimalDenotes(n: int)
    ensures n >= 0 ==> DigitsValue(Decimal(n)) == n
    ensures n < 0 ==> Decimal(n)[0] == 45 && DigitsValue(Decimal(n)[1..]) == -n
  {
    if n >= 0 {
      DigitsDenote(n);
    } else {
      assert Decimal(n)[1..] == Digits(-n);
      DigitsDenote(-n);
    }
  }

  /** A natural number below 10^k, for k >= 1, has at most k digits. */
  lemma {:induction false} DigitsLength(n: nat, k: nat)
    requires k >= 1 && n < Pow10(k)
    ensures |Digits(n)| <= k
    decreases k
  {
    if n >= 10 {
      assert Pow10(1) == 10;
      assert n / 10 < Pow10(k - 1);
      DigitsLength(n / 10, k - 1);
    }
  }

  function Pow10(k: nat): nat {
    if k == 0 then 1 else 10 * Pow10(k - 1)
  }

  /** A number passed where a string is expected renders in at most 30 bytes ("<number: " + 20 + ">"). */
  lemma NumberRenderingIsShort(n: Int64)
    ensures |StringOf(Number(n))| <= 30
  {
    assert Pow10(5) == 100_000;
    assert Pow10(10) == 10_000_000_000;
    assert Pow10(15) == 1_000_000_000_000_000;
    assert Pow10(19) == 10_000_000_000_000_000_000;
    var m: int := n;
    if m < 0 {
      DigitsLength(-m, 19);
    } else {
      DigitsLength(m, 19);
    }
  }
}
