/**
 * The front half of every exported sign function and of createAuthToken:
 * the argument checks, the conversions `Value.Int()`/`Value.String()` with
 * Go's casts, and the sentinel, memo, pubkey and grouped-order normalisation.
 * What they hand to the transaction builder (`txClient.Get*Transaction`,
 * `txClient.GetAuthToken`) is the result: a `BuilderCall` naming the active
 * client, the request and the transaction options.
 *
 * The JSON decoding of `ordersJSON` is a parameter: it yields the decoded
 * legs, or None where `json.Unmarshal` fails (bad syntax, a field out of its
 * Go type's range, ...).
 */
module SignRequests {
  import opened GoTypes
  import opened Binding
  import opened Normalise

  /** types.TransactOpts as the binding fills it: an optional nonce and ExpiredAt (0 when left unset). */
  datatype TransactOpts = TransactOpts(nonce: Option<Int64>, expiredAt: Int64)

  /** types.CreateOrderTxReq. */
  datatype OrderReq = OrderReq(
    marketIndex: UInt8, clientOrderIndex: Int64, baseAmount: Int64, price: UInt32, isAsk: UInt8,
    orderType: UInt8, timeInForce: UInt8, reduceOnly: UInt8, triggerPrice: UInt32, orderExpiry: Int64)

  /** One element of ordersJSON, with the Go types its fields are decoded into. */
  datatype LegRequest = LegRequest(
    marketIndex: UInt8, baseAmount: Int64, price: UInt32, isAsk: UInt8, orderType: UInt8,
    timeInForce: UInt8, reduceOnly: UInt8, triggerPrice: UInt32, orderExpiry: Int64)

  /** The request each sign function passes to the builder. */
  datatype TxRequest =
    | ChangePubKeyReq(pubKey: seq<Byte>)
    | CreateOrderReq(order: OrderReq)
    | CancelOrderReq(marketIndex: UInt8, index: Int64)
    | WithdrawReq(withdrawAmount: UInt64)
    | CreateSubAccountReq
    | CancelAllOrdersReq(timeInForce: UInt8, time: Int64)
    | ModifyOrderReq(marketIndex: UInt8, index: Int64, baseAmount: Int64, price: UInt32, triggerPrice: UInt32)
    | TransferReq(toAccountIndex: Int64, usdcAmount: Int64, fee: Int64, memo: seq<Byte>)
    | CreatePublicPoolReq(operatorFee: Int64, initialTotalShares: Int64, minOperatorShareRate: Int64)
    | UpdatePublicPoolReq(publicPoolIndex: Int64, status: UInt8, operatorFee: Int64, minOperatorShareRate: Int64)
    | MintSharesReq(publicPoolIndex: Int64, shareAmount: Int64)
    | BurnSharesReq(publicPoolIndex: Int64, shareAmount: Int64)
    | UpdateLeverageReq(marketIndex: UInt8, initialMarginFraction: UInt16, marginMode: UInt8)
    | UpdateMarginReq(marketIndex: UInt8, usdcAmount: Int64, direction: UInt8)
    | CreateGroupedOrdersReq(groupingType: UInt8, orders: seq<OrderReq>)

  /** The call into the client that a successful front half ends in. */
  datatype BuilderCall =
    | Transaction(client: TxClient, req: TxRequest, opts: TransactOpts)
    | AuthToken(client: TxClient, deadline: Int64)

  /** The exported sign functions. */
  datatype TxKind =
    | ChangePubKey | CreateOrder | CancelOrder | Withdraw | CreateSubAccount | CancelAllOrders
    | ModifyOrder | Transfer | CreatePublicPool | UpdatePublicPool | MintShares | BurnShares
    | UpdateLeverage | UpdateMargin | CreateGroupedOrders

  function KindOf(req: TxRequest): TxKind {
    match req
    case ChangePubKeyReq(_) => ChangePubKey
    case CreateOrderReq(_) => CreateOrder
    case CancelOrderReq(_, _) => CancelOrder
    case WithdrawReq(_) => Withdraw
    case CreateSubAccountReq => CreateSubAccount
    case CancelAllOrdersReq(_, _) => CancelAllOrders
    case ModifyOrderReq(_, _, _, _, _) => ModifyOrder
    case TransferReq(_, _, _, _) => Transfer
    case CreatePublicPoolReq(_, _, _) => CreatePublicPool
    case UpdatePublicPoolReq(_, _, _, _) => UpdatePublicPool
    case MintSharesReq(_, _) => MintShares
    case BurnSharesReq(_, _) => BurnShares
    case UpdateLeverageReq(_, _, _) => UpdateLeverage
    case UpdateMarginReq(_, _, _) => UpdateMargin
    case CreateGroupedOrdersReq(_, _) => CreateGroupedOrders
  }

  function ExportedName(kind: TxKind): string {
    match kind
    case ChangePubKey => "signChangePubKey"
    case CreateOrder => "signCreateOrder"
    case CancelOrder => "signCancelOrder"
    case Withdraw => "signWithdraw"
    case CreateSubAccount => "signCreateSubAccount"
    case CancelAllOrders => "signCancelAllOrders"
    case ModifyOrder => "signModifyOrder"
    case Transfer => "signTransfer"
    case CreatePublicPool => "signCreatePublicPool"
    case UpdatePublicPool => "signUpdatePublicPool"
    case MintShares => "signMintShares"
    case BurnShares => "signBurnShares"
    case UpdateLeverage => "signUpdateLeverage"
    case UpdateMargin => "signUpdateMargin"
    case CreateGroupedOrders => "signCreateGroupedOrders"
  }

  const CreateOrderArgNames: seq<string> :=
    ["marketIndex", "clientOrderIndex", "baseAmount", "price", "isAsk", "orderType",
     "timeInForce", "reduceOnly", "triggerPrice", "orderExpiry", "nonce"]

  /** The names each function validates, in order; the nonce always comes last. */
  function ArgNames(kind: TxKind): (names: seq<string>)
    ensures |names| >= 1 && names[|names| - 1] == "nonce"
  {
    match kind
    case ChangePubKey => ["pubKey", "nonce"]
    case CreateOrder => CreateOrderArgNames
    case CancelOrder => ["marketIndex", "orderIndex", "nonce"]
    case Withdraw => ["usdcAmount", "nonce"]
    case CreateSubAccount => ["nonce"]
    case CancelAllOrders => ["timeInForce", "time", "nonce"]
    case ModifyOrder => ["marketIndex", "index", "baseAmount", "price", "triggerPrice", "nonce"]
    case Transfer => ["toAccountIndex", "usdcAmount", "fee", "memo", "nonce"]
    case CreatePublicPool => ["operatorFee", "initialTotalShares", "minOperatorShareRate", "nonce"]
    case UpdatePublicPool => ["publicPoolIndex", "status", "operatorFee", "minOperatorShareRate", "nonce"]
    case MintShares => ["publicPoolIndex", "shareAmount", "nonce"]
    case BurnShares => ["publicPoolIndex", "shareAmount", "nonce"]
    case UpdateLeverage => ["marketIndex", "initialMarginFraction", "marginMode", "nonce"]
    case UpdateMargin => ["marketIndex", "usdcAmount", "direction", "nonce"]
    case CreateGroupedOrders => ["groupingType", "ordersJSON", "expiredAt", "nonce"]
  }

  /** The one argument a function reads with Value.String() (the pubkey, the memo, the orders JSON). */
  predicate IsStringSlot(kind: TxKind, i: nat) {
    (kind == ChangePubKey && i == 0) || (kind == Transfer && i == 3) || (kind == CreateGroupedOrders && i == 1)
  }

  /** Every argument read with Value.Int() is a number, so no conversion panics. */
  predicate NumbersGiven(kind: TxKind, args: seq<JsValue>) {
    forall i :: 0 <= i < |args| && !IsStringSlot(kind, i) ==> args[i].Number?
  }

  /** A leg of a grouped order as the builder receives it: no client order index, the expiry defaulted. */
  function LegOrder(leg: LegRequest, now: Instant): OrderReq {
    OrderReq(leg.marketIndex, 0, leg.baseAmount, leg.price, leg.isAsk, leg.orderType,
             leg.timeInForce, leg.reduceOnly, leg.triggerPrice, OrderExpiry(leg.orderExpiry, now))
  }

  /** The orders built from the legs, in their order. */
  function LegOrders(legs: seq<LegRequest>, now: Instant): (orders: seq<OrderReq>)
    ensures |orders| == |legs|
    ensures forall i :: 0 <= i < |legs| ==> orders[i] == LegOrder(legs[i], now)
  {
    if legs == [] then []
    else LegOrders(legs[..|legs| - 1], now) + [LegOrder(legs[|legs| - 1], now)]
  }

  /** Every grouped leg goes out without a client order index, with a real expiry, and otherwise as given. */
  lemma LegOrdersNormalised(legs: seq<LegRequest>, now: Instant, i: nat)
    requires i < |legs|
    ensures LegOrders(legs, now)[i].clientOrderIndex == 0
    ensures LegOrders(legs, now)[i].orderExpiry != -1
    ensures legs[i].orderExpiry != -1 ==> LegOrders(legs, now)[i].orderExpiry == legs[i].orderExpiry
    ensures LegOrders(legs, now)[i].marketIndex == legs[i].marketIndex
    ensures LegOrders(legs, now)[i].baseAmount == legs[i].baseAmount
    ensures LegOrders(legs, now)[i].price == legs[i].price
    ensures LegOrders(legs, now)[i].triggerPrice == legs[i].triggerPrice
  {
  }

  /** The numbers of the arguments read with Value.Int() (a string slot is read otherwise and gets 0 here). */
  function IntArgs(args: seq<JsValue>): (n: seq<Int64>)
    ensures |n| == |args|
    ensures forall i :: 0 <= i < |args| && args[i].Number? ==> n[i] == args[i].n
  {
    seq(|args|, i requires 0 <= i < |args| => IntOf(args[i]).GetOr(0))
  }

  /** signChangePubKey's request: the decoded 40-byte key. */
  function ChangePubKeyRequest(pubKeyStr: seq<Byte>): (r: Result<TxRequest, BindingError>)
    ensures r.Ok? <==> ParsePubKey(pubKeyStr).Ok?
    ensures r.Ok? ==> r.value == ChangePubKeyReq(ParsePubKey(pubKeyStr).value)
    ensures r.Err? ==> r.error == ParsePubKey(pubKeyStr).error
  {
    match ParsePubKey(pubKeyStr)
    case Err(e) => Err(e)
    case Ok(pubKey) => Ok(ChangePubKeyReq(pubKey))
  }

  /** signTransfer's request: the amounts as given and the parsed memo. */
  function TransferRequest(toAccountIndex: Int64, usdcAmount: Int64, fee: Int64, memoStr: seq<Byte>)
    : (r: Result<TxRequest, BindingError>)
    ensures r.Ok? <==> ParseMemo(memoStr).Ok?
    ensures r.Ok? ==> r.value == TransferReq(toAccountIndex, usdcAmount, fee, ParseMemo(memoStr).value)
    ensures r.Err? ==> r.error == ParseMemo(memoStr).error
  {
    match ParseMemo(memoStr)
    case Err(e) => Err(e)
    case Ok(memo) => Ok(TransferReq(toAccountIndex, usdcAmount, fee, memo))
  }

  /** signCreateGroupedOrders' request: the decoded legs, two or three of them, as orders. */
  function GroupedOrdersRequest(groupingType: UInt8, ordersJSON: seq<Byte>, now: Instant,
                                parseOrders: seq<Byte> -> Option<seq<LegRequest>>): (r: Result<TxRequest, BindingError>)
    ensures parseOrders(ordersJSON).None? ==> r == Err(OrdersJsonInvalid)
    ensures parseOrders(ordersJSON).Some? && !(2 <= |parseOrders(ordersJSON).value| <= 3) ==> r == Err(GroupedOrdersCount)
    ensures r.Ok? ==> r.value.CreateGroupedOrdersReq? && r.value.groupingType == groupingType
    ensures r.Ok? ==> parseOrders(ordersJSON).Some? && r.value.orders == LegOrders(parseOrders(ordersJSON).value, now)
    ensures r.Ok? ==> 2 <= |r.value.orders| <= 3
  {
    match parseOrders(ordersJSON)
    case None => Err(OrdersJsonInvalid)
    case Some(legs) =>
      if |legs| < 2 || |legs| > 3 then Err(GroupedOrdersCount)
      else Ok(CreateGroupedOrdersReq(groupingType, LegOrders(legs, now)))
  }

  /**
   * The request a function builds once its arguments have passed the checks
   * and been read (`n` holds the numbers); errors come only from the string
   * argument (pubkey, memo, orders JSON).
   */
  function Request(kind: TxKind, args: seq<JsValue>, n: seq<Int64>, now: Instant,
                   parseOrders: seq<Byte> -> Option<seq<LegRequest>>): (r: Result<TxRequest, BindingError>)
    requires |args| == |n| == |ArgNames(kind)|
    ensures r.Ok? ==> KindOf(r.value) == kind
    ensures r.Err? ==> kind == ChangePubKey || kind == Transfer || kind == CreateGroupedOrders
  {
    match kind
    case ChangePubKey =>
      ChangePubKeyRequest(StringOf(args[0]))
    case CreateOrder =>
      Ok(CreateOrderReq(OrderReq(Uint8Of(n[0]), n[1], n[2], Uint32Of(n[3]), Uint8Of(n[4]), Uint8Of(n[5]),
                                 Uint8Of(n[6]), Uint8Of(n[7]), Uint32Of(n[8]), OrderExpiry(n[9], now))))
    case CancelOrder => Ok(CancelOrderReq(Uint8Of(n[0]), n[1]))
    case Withdraw => Ok(WithdrawReq(Uint64Of(n[0])))
    case CreateSubAccount => Ok(CreateSubAccountReq)
    case CancelAllOrders => Ok(CancelAllOrdersReq(Uint8Of(n[0]), n[1]))
    case ModifyOrder => Ok(ModifyOrderReq(Uint8Of(n[0]), n[1], n[2], Uint32Of(n[3]), Uint32Of(n[4])))
    case Transfer =>
      TransferRequest(n[0], n[1], n[2], StringOf(args[3]))
    case CreatePublicPool => Ok(CreatePublicPoolReq(n[0], n[1], n[2]))
    case UpdatePublicPool => Ok(UpdatePublicPoolReq(n[0], Uint8Of(n[1]), n[2], n[3]))
    case MintShares => Ok(MintSharesReq(n[0], n[1]))
    case BurnShares => Ok(BurnSharesReq(n[0], n[1]))
    case UpdateLeverage => Ok(UpdateLeverageReq(Uint8Of(n[0]), Uint16Of(n[1]), Uint8Of(n[2])))
    case UpdateMargin => Ok(UpdateMarginReq(Uint8Of(n[0]), n[1], Uint8Of(n[2])))
    case CreateGroupedOrders =>
      GroupedOrdersRequest(Uint8Of(n[0]), StringOf(args[1]), now, parseOrders)
  }

  /**
   * The request and the options: the nonce from the last argument, and
   * ExpiredAt, which only signCreateGroupedOrders sets.
   */
  function Build(kind: TxKind, args: seq<JsValue>, now: Instant, parseOrders: seq<Byte> -> Option<seq<LegRequest>>)
    : (r: Result<(TxRequest, TransactOpts), BindingError>)
    requires |args| == |ArgNames(kind)|
    ensures r.Ok? ==> KindOf(r.value.0) == kind
    ensures r.Ok? ==> r.value.1.nonce == NonceOption(IntArgs(args)[|args| - 1])
    ensures r.Ok? && kind != CreateGroupedOrders ==> r.value.1.expiredAt == 0
    ensures r.Err? ==> kind == ChangePubKey || kind == Transfer || kind == CreateGroupedOrders
  {
    var n := IntArgs(args);
    var expiredAt := if kind == CreateGroupedOrders then ExpiredAtOption(n[2]) else 0;
    match Request(kind, args, n, now, parseOrders)
    case Err(e) => Err(e)
    case Ok(req) => Ok((req, TransactOpts(NonceOption(n[|n| - 1]), expiredAt)))
  }

  /** The checks pass and every argument read with Value.Int() is a number: the function gets to its conversions. */
  predicate PassesChecks(kind: TxKind, txClient: Option<TxClient>, args: seq<JsValue>) {
    Preamble(txClient, ExportedName(kind), args, ArgNames(kind)).None? && NumbersGiven(kind, args)
  }

  /**
   * An exported sign function up to the builder call: the count, each
   * argument, the client, the conversions (a non-number aborts the call),
   * then the request.
   */
  function Sign(kind: TxKind, txClient: Option<TxClient>, args: seq<JsValue>, now: Instant,
                parseOrders: seq<Byte> -> Option<seq<LegRequest>>): (r: Reply<BuilderCall>)
    ensures Preamble(txClient, ExportedName(kind), args, ArgNames(kind)).Some? ==>
              r == Failure(Preamble(txClient, ExportedName(kind), args, ArgNames(kind)).value)
    ensures Preamble(txClient, ExportedName(kind), args, ArgNames(kind)).None? ==>
              (r == Aborted <==> !NumbersGiven(kind, args))
    ensures r.Failure? ==> !r.err.MissingArgument?
    ensures r.Failure? && Preamble(txClient, ExportedName(kind), args, ArgNames(kind)).None? ==>
              kind == ChangePubKey || kind == Transfer || kind == CreateGroupedOrders
    ensures PassesChecks(kind, txClient, args) ==>
              && (r.Failure? <==> Build(kind, args, now, parseOrders).Err?)
              && (r.Failure? ==> r.err == Build(kind, args, now, parseOrders).error)
    ensures r.Success? ==>
              && txClient.Some? && |args| == |ArgNames(kind)|
              && r.value.Transaction? && r.value.client == txClient.value
              && KindOf(r.value.req) == kind
              && args[|args| - 1].Number? && r.value.opts.nonce == NonceOption(args[|args| - 1].n)
              && (kind != CreateGroupedOrders ==> r.value.opts.expiredAt == 0)
  {
    match Preamble(txClient, ExportedName(kind), args, ArgNames(kind))
    case Some(e) => Failure(e)
    case None =>
      if !NumbersGiven(kind, args) then Aborted
      else
        match Build(kind, args, now, parseOrders)
        case Err(e) => Failure(e)
        case Ok((req, opts)) => Success(Transaction(txClient.value, req, opts))
  }

  /** The request does not depend on which client is active, only on there being one. */
  lemma SignClientIndependent(kind: TxKind, c1: TxClient, c2: TxClient, args: seq<JsValue>, now: Instant,
                              parseOrders: seq<Byte> -> Option<seq<LegRequest>>)
    ensures Sign(kind, Some(c1), args, now, parseOrders).Success? <==> Sign(kind, Some(c2), args, now, parseOrders).Success?
    ensures Sign(kind, Some(c1), args, now, parseOrders).Success? ==>
              Sign(kind, Some(c1), args, now, parseOrders).value.req == Sign(kind, Some(c2), args, now, parseOrders).value.req &&
              Sign(kind, Some(c1), args, now, parseOrders).value.opts == Sign(kind, Some(c2), args, now, parseOrders).value.opts
  {
  }

  /** signCreateOrder, whose argument checks are a loop over its argument names. */
  method SignCreateOrder(txClient: Option<TxClient>, args: seq<JsValue>, now: Instant) returns (r: Reply<BuilderCall>)
    ensures r == Sign(CreateOrder, txClient, args, now, _ => None)
  {
    if |args| != 11 {
      return Failure(WrongArgCount("signCreateOrder"));
    }
    var err := ValidateArgs(args, CreateOrderArgNames);
    if err.Some? {
      return Failure(err.value);
    }
    if txClient.None? {
      return Failure(ClientNotCreated);
    }
    if !NumbersGiven(CreateOrder, args) {
      return Aborted;
    }
    var orderExpiry := args[9].n;
    if orderExpiry == -1 {
      orderExpiry := DefaultOrderExpiry(now);
    }
    var order := OrderReq(Uint8Of(args[0].n), args[1].n, args[2].n, Uint32Of(args[3].n), Uint8Of(args[4].n),
                          Uint8Of(args[5].n), Uint8Of(args[6].n), Uint8Of(args[7].n), Uint32Of(args[8].n), orderExpiry);
    var nonce := args[10].n;
    var opts := TransactOpts(None, 0);
    if nonce != -1 {
      opts := opts.(nonce := Some(nonce));
    }
    r := Success(Transaction(txClient.value, CreateOrderReq(order), opts));
  }

  /** The loop of signCreateGroupedOrders that turns the decoded legs into orders. */
  method BuildLegOrders(legs: seq<LegRequest>, now: Instant) returns (orders: seq<OrderReq>)
    ensures orders == LegOrders(legs, now)
  {
    orders := [];
    var i := 0;
    while i < |legs|
      invariant 0 <= i <= |legs|
      invariant orders == LegOrders(legs[..i], now)
    {
      var leg := legs[i];
      var orderExpiry := leg.orderExpiry;
      if orderExpiry == -1 {
        orderExpiry := DefaultOrderExpiry(now);
      }
      orders := orders + [OrderReq(leg.marketIndex, 0, leg.baseAmount, leg.price, leg.isAsk, leg.orderType,
                                   leg.timeInForce, leg.reduceOnly, leg.triggerPrice, orderExpiry)];
      assert legs[..i + 1][..i] == legs[..i];
      i := i + 1;
    }
    assert legs[..i] == legs;
  }

  /** signCreateGroupedOrders up to the builder call. */
  method SignCreateGroupedOrders(txClient: Option<TxClient>, args: seq<JsValue>, now: Instant,
                                 parseOrders: seq<Byte> -> Option<seq<LegRequest>>) returns (r: Reply<BuilderCall>)
    ensures r == Sign(CreateGroupedOrders, txClient, args, now, parseOrders)
  {
    var e := Preamble(txClient, "signCreateGroupedOrders", args, ArgNames(CreateGroupedOrders));
    if e.Some? {
      return Failure(e.value);
    }
    if !NumbersGiven(CreateGroupedOrders, args) {
      return Aborted;
    }
    var groupingType := Uint8Of(args[0].n);
    var ordersJSON := StringOf(args[1]);
    var expiredAt := args[2].n;
    var nonce := args[3].n;
    var orderRequests := parseOrders(ordersJSON);
    if orderRequests.None? {
      return Failure(OrdersJsonInvalid);
    }
    var legs := orderRequests.value;
    if |legs| < 2 || |legs| > 3 {
      return Failure(GroupedOrdersCount);
    }
    var orders := BuildLegOrders(legs, now);
    var opts := TransactOpts(None, 0);
    if nonce != -1 {
      opts := opts.(nonce := Some(nonce));
    }
    if expiredAt != -1 {
      opts := opts.(expiredAt := expiredAt);
    }
    r := Success(Transaction(txClient.value, CreateGroupedOrdersReq(groupingType, orders), opts));
  }

  /** A successful grouped order carries two or three legs, each normalised. */
  lemma GroupedOrdersShape(txClient: Option<TxClient>, args: seq<JsValue>, now: Instant,
                           parseOrders: seq<Byte> -> Option<seq<LegRequest>>)
    ensures Sign(CreateGroupedOrders, txClient, args, now, parseOrders).Success? ==>
              var req := Sign(CreateGroupedOrders, txClient, args, now, parseOrders).value.req;
              && parseOrders(StringOf(args[1])).Some?
              && req.orders == LegOrders(parseOrders(StringOf(args[1])).value, now)
              && 2 <= |req.orders| <= 3
              && (forall i :: 0 <= i < |req.orders| ==> req.orders[i].clientOrderIndex == 0 && req.orders[i].orderExpiry != -1)
  {
  }

  /**
   * createAuthToken: an optional deadline read before the client check (a
   * non-number aborts, arguments beyond the first are ignored), and 0 meaning
   * seven hours from now.
   */
  function CreateAuthToken(txClient: Option<TxClient>, args: seq<JsValue>, now: Instant): (r: Reply<BuilderCall>)
    ensures |args| > 0 && !args[0].Number? ==> r == Aborted
    ensures (|args| == 0 || args[0].Number?) && txClient.None? ==> r == Failure(ClientNotCreated)
    ensures r.Success? <==> (|args| == 0 || args[0].Number?) && txClient.Some?
    ensures r.Success? ==> r.value.AuthToken? && r.value.client == txClient.value && r.value.deadline != 0
    ensures r.Success? && |args| > 0 && args[0].n != 0 ==> r.value.deadline == args[0].n
    ensures r.Success? && (|args| == 0 || args[0].n == 0) ==> r.value.deadline == DefaultAuthDeadline(now)
  {
    if |args| > 0 && !args[0].Number? then Aborted
    else
      var deadline: Int64 := if |args| > 0 then args[0].n else 0;
      if txClient.None? then Failure(ClientNotCreated)
      else Success(AuthToken(txClient.value, AuthDeadline(deadline, now)))
  }

  /** signCreateOrder: the market index, flags and order type through uint8, price and trigger price through uint32, the expiry normalised. */
  lemma CreateOrderConversions(txClient: Option<TxClient>, args: seq<JsValue>, now: Instant,
                       parseOrders: seq<Byte> -> Option<seq<LegRequest>>)
    requires PassesChecks(CreateOrder, txClient, args)
    ensures Sign(CreateOrder, txClient, args, now, parseOrders) ==
              Success(Transaction(txClient.value, CreateOrderReq(OrderReq(Uint8Of(args[0].n), args[1].n, args[2].n, Uint32Of(args[3].n), Uint8Of(args[4].n), Uint8Of(args[5].n),
                                           Uint8Of(args[6].n), Uint8Of(args[7].n), Uint32Of(args[8].n), OrderExpiry(args[9].n, now))),
                                  TransactOpts(NonceOption(args[10].n), 0)))
  {
  }
  /** signCancelOrder: the market index through uint8, the order index as given. */
  lemma CancelOrderConversions(txClient: Option<TxClient>, args: seq<JsValue>, now: Instant,
                       parseOrders: seq<Byte> -> Option<seq<LegRequest>>)
    requires PassesChecks(CancelOrder, txClient, args)
    ensures Sign(CancelOrder, txClient, args, now, parseOrders) ==
              Success(Transaction(txClient.value, CancelOrderReq(Uint8Of(args[0].n), args[1].n),
                                  TransactOpts(NonceOption(args[2].n), 0)))
  {
  }
  /** signWithdraw: the amount through uint64, so a negative number wraps to a large amount. */
  lemma WithdrawConversions(txClient: Option<TxClient>, args: seq<JsValue>, now: Instant,
                       parseOrders: seq<Byte> -> Option<seq<LegRequest>>)
    requires PassesChecks(Withdraw, txClient, args)
    ensures Sign(Withdraw, txClient, args, now, parseOrders) ==
              Success(Transaction(txClient.value, WithdrawReq(Uint64Of(args[0].n)),
                                  TransactOpts(NonceOption(args[1].n), 0)))
  {
  }
  /** signCreateSubAccount: only the nonce is read. */
  lemma CreateSubAccountConversions(txClient: Option<TxClient>, args: seq<JsValue>, now: Instant,
                       parseOrders: seq<Byte> -> Option<seq<LegRequest>>)
    requires PassesChecks(CreateSubAccount, txClient, args)
    ensures Sign(CreateSubAccount, txClient, args, now, parseOrders) ==
              Success(Transaction(txClient.value, CreateSubAccountReq,
                                  TransactOpts(NonceOption(args[0].n), 0)))
  {
  }
  /** signCancelAllOrders: the time-in-force through uint8, the time as given. */
  lemma CancelAllOrdersConversions(txClient: Option<TxClient>, args: seq<JsValue>, now: Instant,
                       parseOrders: seq<Byte> -> Option<seq<LegRequest>>)
    requires PassesChecks(CancelAllOrders, txClient, args)
    ensures Sign(CancelAllOrders, txClient, args, now, parseOrders) ==
              Success(Transaction(txClient.value, CancelAllOrdersReq(Uint8Of(args[0].n), args[1].n),
                                  TransactOpts(NonceOption(args[2].n), 0)))
  {
  }
  /** signModifyOrder: the market index through uint8, the prices through uint32. */
  lemma ModifyOrderConversions(txClient: Option<TxClient>, args: seq<JsValue>, now: Instant,
                       parseOrders: seq<Byte> -> Option<seq<LegRequest>>)
    requires PassesChecks(ModifyOrder, txClient, args)
    ensures Sign(ModifyOrder, txClient, args, now, parseOrders) ==
              Success(Transaction(txClient.value, ModifyOrderReq(Uint8Of(args[0].n), args[1].n, args[2].n, Uint32Of(args[3].n), Uint32Of(args[4].n)),
                                  TransactOpts(NonceOption(args[5].n), 0)))
  {
  }
  /** signCreatePublicPool: every number as given. */
  lemma CreatePublicPoolConversions(txClient: Option<TxClient>, args: seq<JsValue>, now: Instant,
                       parseOrders: seq<Byte> -> Option<seq<LegRequest>>)
    requires PassesChecks(CreatePublicPool, txClient, args)
    ensures Sign(CreatePublicPool, txClient, args, now, parseOrders) ==
              Success(Transaction(txClient.value, CreatePublicPoolReq(args[0].n, args[1].n, args[2].n),
                                  TransactOpts(NonceOption(args[3].n), 0)))
  {
  }
  /** signUpdatePublicPool: the status through uint8, the rest as given. */
  lemma UpdatePublicPoolConversions(txClient: Option<TxClient>, args: seq<JsValue>, now: Instant,
                       parseOrders: seq<Byte> -> Option<seq<LegRequest>>)
    requires PassesChecks(UpdatePublicPool, txClient, args)
    ensures Sign(UpdatePublicPool, txClient, args, now, parseOrders) ==
              Success(Transaction(txClient.value, UpdatePublicPoolReq(args[0].n, Uint8Of(args[1].n), args[2].n, args[3].n),
                                  TransactOpts(NonceOption(args[4].n), 0)))
  {
  }
  /** signMintShares: every number as given. */
  lemma MintSharesConversions(txClient: Option<TxClient>, args: seq<JsValue>, now: Instant,
                       parseOrders: seq<Byte> -> Option<seq<LegRequest>>)
    requires PassesChecks(MintShares, txClient, args)
    ensures Sign(MintShares, txClient, args, now, parseOrders) ==
              Success(Transaction(txClient.value, MintSharesReq(args[0].n, args[1].n),
                                  TransactOpts(NonceOption(args[2].n), 0)))
  {
  }
  /** signBurnShares: every number as given. */
  lemma BurnSharesConversions(txClient: Option<TxClient>, args: seq<JsValue>, now: Instant,
                       parseOrders: seq<Byte> -> Option<seq<LegRequest>>)
    requires PassesChecks(BurnShares, txClient, args)
    ensures Sign(BurnShares, txClient, args, now, parseOrders) ==
              Success(Transaction(txClient.value, BurnSharesReq(args[0].n, args[1].n),
                                  TransactOpts(NonceOption(args[2].n), 0)))
  {
  }
  /** signUpdateLeverage: market index and margin mode through uint8, the margin fraction through uint16. */
  lemma UpdateLeverageConversions(txClient: Option<TxClient>, args: seq<JsValue>, now: Instant,
                       parseOrders: seq<Byte> -> Option<seq<LegRequest>>)
    requires PassesChecks(UpdateLeverage, txClient, args)
    ensures Sign(UpdateLeverage, txClient, args, now, parseOrders) ==
              Success(Transaction(txClient.value, UpdateLeverageReq(Uint8Of(args[0].n), Uint16Of(args[1].n), Uint8Of(args[2].n)),
                                  TransactOpts(NonceOption(args[3].n), 0)))
  {
  }
  /** signUpdateMargin: market index and direction through uint8, the amount as given. */
  lemma UpdateMarginConversions(txClient: Option<TxClient>, args: seq<JsValue>, now: Instant,
                       parseOrders: seq<Byte> -> Option<seq<LegRequest>>)
    requires PassesChecks(UpdateMargin, txClient, args)
    ensures Sign(UpdateMargin, txClient, args, now, parseOrders) ==
              Success(Transaction(txClient.value, UpdateMarginReq(Uint8Of(args[0].n), args[1].n, Uint8Of(args[2].n)),
                                  TransactOpts(NonceOption(args[3].n), 0)))
  {
  }
  /** signChangePubKey: the key parser's error, or the parsed key. */
  lemma ChangePubKeyConversions(txClient: Option<TxClient>, args: seq<JsValue>, now: Instant,
                                parseOrders: seq<Byte> -> Option<seq<LegRequest>>)
    requires PassesChecks(ChangePubKey, txClient, args)
    ensures ParsePubKey(StringOf(args[0])).Err? ==>
              Sign(ChangePubKey, txClient, args, now, parseOrders) == Failure(ParsePubKey(StringOf(args[0])).error)
    ensures ParsePubKey(StringOf(args[0])).Ok? ==>
              Sign(ChangePubKey, txClient, args, now, parseOrders) ==
              Success(Transaction(txClient.value, ChangePubKeyReq(ParsePubKey(StringOf(args[0])).value),
                                  TransactOpts(NonceOption(args[1].n), 0)))
  {
  }

  /** signTransfer: the memo parser's error, or the amounts as given with the parsed memo. */
  lemma TransferConversions(txClient: Option<TxClient>, args: seq<JsValue>, now: Instant,
                            parseOrders: seq<Byte> -> Option<seq<LegRequest>>)
    requires PassesChecks(Transfer, txClient, args)
    ensures ParseMemo(StringOf(args[3])).Err? ==>
              Sign(Transfer, txClient, args, now, parseOrders) == Failure(ParseMemo(StringOf(args[3])).error)
    ensures ParseMemo(StringOf(args[3])).Ok? ==>
              Sign(Transfer, txClient, args, now, parseOrders) ==
              Success(Transaction(txClient.value, TransferReq(args[0].n, args[1].n, args[2].n, ParseMemo(StringOf(args[3])).value),
                                  TransactOpts(NonceOption(args[4].n), 0)))
  {
  }

  /** signCreateGroupedOrders: the JSON error, the count error, or the grouping type through uint8 with the built legs. */
  lemma CreateGroupedOrdersConversions(txClient: Option<TxClient>, args: seq<JsValue>, now: Instant,
                                       parseOrders: seq<Byte> -> Option<seq<LegRequest>>)
    requires PassesChecks(CreateGroupedOrders, txClient, args)
    ensures parseOrders(StringOf(args[1])).None? ==>
              Sign(CreateGroupedOrders, txClient, args, now, parseOrders) == Failure(OrdersJsonInvalid)
    ensures parseOrders(StringOf(args[1])).Some? && !(2 <= |parseOrders(StringOf(args[1])).value| <= 3) ==>
              Sign(CreateGroupedOrders, txClient, args, now, parseOrders) == Failure(GroupedOrdersCount)
    ensures parseOrders(StringOf(args[1])).Some? && 2 <= |parseOrders(StringOf(args[1])).value| <= 3 ==>
              Sign(CreateGroupedOrders, txClient, args, now, parseOrders) ==
              Success(Transaction(txClient.value,
                                  CreateGroupedOrdersReq(Uint8Of(args[0].n), LegOrders(parseOrders(StringOf(args[1])).value, now)),
                                  TransactOpts(NonceOption(args[3].n), ExpiredAtOption(args[2].n))))
  {
  }

  /** Go's uint8 cast wraps: a market index of 300 reaches the builder as 44. */
  lemma CancelOrderMarketIndexWraps(c: TxClient, now: Instant, parseOrders: seq<Byte> -> Option<seq<LegRequest>>)
    ensures Sign(CancelOrder, Some(c), [Number(300), Number(5), Number(-1)], now, parseOrders) ==
              Success(Transaction(c, CancelOrderReq(44, 5), TransactOpts(None, 0)))
  {
    var args := [Number(300), Number(5), Number(-1)];
    assert ArgsValidFrom(args, ArgNames(CancelOrder), 0);
    CancelOrderConversions(Some(c), args, now, parseOrders);
  }

  /** A number passed as the pubkey renders as "<number: n>", which hexutil refuses for its missing prefix. */
  lemma NumberPubKeyRejected(c: TxClient, key: Int64, nonce: Int64, now: Instant,
                             parseOrders: seq<Byte> -> Option<seq<LegRequest>>)
    ensures Sign(ChangePubKey, Some(c), [Number(key), Number(nonce)], now, parseOrders) ==
              Failure(InvalidPubKeyFormat(HexUtil.MissingPrefix))
  {
    assert ArgsValidFrom([Number(key), Number(nonce)], ArgNames(ChangePubKey), 0);
  }

  /** A number passed as the memo is refused for its length. */
  lemma NumberMemoRefused(c: TxClient, to: Int64, amount: Int64, fee: Int64, memo: Int64, nonce: Int64, now: Instant,
                          parseOrders: seq<Byte> -> Option<seq<LegRequest>>)
    ensures Sign(Transfer, Some(c), [Number(to), Number(amount), Number(fee), Number(memo), Number(nonce)], now, parseOrders) ==
              Failure(MemoWrongLength)
  {
    var args := [Number(to), Number(amount), Number(fee), Number(memo), Number(nonce)];
    assert ArgsValidFrom(args, ArgNames(Transfer), 0);
    NumberMemoRejected(memo);
  }

  /** A request the binding can produce: a 40-byte key, a 32-byte memo, an order expiry other than the -1 sentinel. */
  predicate Producible(req: TxRequest) {
    match req
    case ChangePubKeyReq(pubKey) => |pubKey| == PubKeySize
    case CreateOrderReq(order) => order.orderExpiry != -1
    case TransferReq(_, _, _, memo) => |memo| == MemoSize
    case CreateGroupedOrdersReq(_, _) => false
    case _ => true
  }

  /** The JavaScript number whose uint64 conversion is the given amount. */
  function Int64For(amount: UInt64): (x: Int64)
    ensures Uint64Of(x) == amount
  {
    if amount < 0x8000_0000_0000_0000 then amount else amount - 0x1_0000_0000_0000_0000
  }

  /**
   * The arguments that produce a request: every number as it is, the key
   * "0x"-prefixed hex, the memo bare hex, and -1 for "no nonce".
   */
  function ArgsFor(req: TxRequest, nonce: Option<Int64>): seq<JsValue>
    requires Producible(req)
  {
    var last := [Number(NonceArgument(nonce))];
    match req
    case ChangePubKeyReq(pubKey) => [Str(HexUtil.Prefix + HexUtil.Encode(pubKey))] + last
    case CreateOrderReq(o) =>
      [Number(o.marketIndex), Number(o.clientOrderIndex), Number(o.baseAmount), Number(o.price), Number(o.isAsk),
       Number(o.orderType), Number(o.timeInForce), Number(o.reduceOnly), Number(o.triggerPrice), Number(o.orderExpiry)] + last
    case CancelOrderReq(marketIndex, index) => [Number(marketIndex), Number(index)] + last
    case WithdrawReq(amount) => [Number(Int64For(amount))] + last
    case CreateSubAccountReq => last
    case CancelAllOrdersReq(timeInForce, time) => [Number(timeInForce), Number(time)] + last
    case ModifyOrderReq(marketIndex, index, baseAmount, price, triggerPrice) =>
      [Number(marketIndex), Number(index), Number(baseAmount), Number(price), Number(triggerPrice)] + last
    case TransferReq(to, amount, fee, memo) => [Number(to), Number(amount), Number(fee), Str(HexUtil.Encode(memo))] + last
    case CreatePublicPoolReq(operatorFee, initialTotalShares, minOperatorShareRate) =>
      [Number(operatorFee), Number(initialTotalShares), Number(minOperatorShareRate)] + last
    case UpdatePublicPoolReq(publicPoolIndex, status, operatorFee, minOperatorShareRate) =>
      [Number(publicPoolIndex), Number(status), Number(operatorFee), Number(minOperatorShareRate)] + last
    case MintSharesReq(publicPoolIndex, shareAmount) => [Number(publicPoolIndex), Number(shareAmount)] + last
    case BurnSharesReq(publicPoolIndex, shareAmount) => [Number(publicPoolIndex), Number(shareAmount)] + last
    case UpdateLeverageReq(marketIndex, initialMarginFraction, marginMode) =>
      [Number(marketIndex), Number(initialMarginFraction), Number(marginMode)] + last
    case UpdateMarginReq(marketIndex, usdcAmount, direction) => [Number(marketIndex), Number(usdcAmount), Number(direction)] + last
  }

  /** signChangePubKey returns any producible request of its kind when called with the arguments that spell it. */
  lemma ChangePubKeyRoundTrip(c: TxClient, req: TxRequest, nonce: Option<Int64>, now: Instant,
                     parseOrders: seq<Byte> -> Option<seq<LegRequest>>)
    requires req.ChangePubKeyReq? && Producible(req) && nonce != Some(-1)
    ensures Sign(ChangePubKey, Some(c), ArgsFor(req, nonce), now, parseOrders) == Success(Transaction(c, req, TransactOpts(nonce, 0)))
  {
    var args := ArgsFor(req, nonce);
    assert ArgsValidFrom(args, ArgNames(ChangePubKey), 0);
    assert NumbersGiven(ChangePubKey, args);
    PubKeyRoundTrip(req.pubKey);
  }

  /** signCreateOrder returns any producible request of its kind when called with the arguments that spell it. */
  lemma CreateOrderRoundTrip(c: TxClient, req: TxRequest, nonce: Option<Int64>, now: Instant,
                     parseOrders: seq<Byte> -> Option<seq<LegRequest>>)
    requires req.CreateOrderReq? && Producible(req) && nonce != Some(-1)
    ensures Sign(CreateOrder, Some(c), ArgsFor(req, nonce), now, parseOrders) == Success(Transaction(c, req, TransactOpts(nonce, 0)))
  {
    var args := ArgsFor(req, nonce);
    assert ArgsValidFrom(args, ArgNames(CreateOrder), 0);
    assert NumbersGiven(CreateOrder, args);
  }

  /** signCancelOrder returns any producible request of its kind when called with the arguments that spell it. */
  lemma CancelOrderRoundTrip(c: TxClient, req: TxRequest, nonce: Option<Int64>, now: Instant,
                     parseOrders: seq<Byte> -> Option<seq<LegRequest>>)
    requires req.CancelOrderReq? && Producible(req) && nonce != Some(-1)
    ensures Sign(CancelOrder, Some(c), ArgsFor(req, nonce), now, parseOrders) == Success(Transaction(c, req, TransactOpts(nonce, 0)))
  {
    var args := ArgsFor(req, nonce);
    assert ArgsValidFrom(args, ArgNames(CancelOrder), 0);
    assert NumbersGiven(CancelOrder, args);
  }

  /** signWithdraw returns any producible request of its kind when called with the arguments that spell it. */
  lemma WithdrawRoundTrip(c: TxClient, req: TxRequest, nonce: Option<Int64>, now: Instant,
                     parseOrders: seq<Byte> -> Option<seq<LegRequest>>)
    requires req.WithdrawReq? && Producible(req) && nonce != Some(-1)
    ensures Sign(Withdraw, Some(c), ArgsFor(req, nonce), now, parseOrders) == Success(Transaction(c, req, TransactOpts(nonce, 0)))
  {
    var args := ArgsFor(req, nonce);
    assert ArgsValidFrom(args, ArgNames(Withdraw), 0);
    assert NumbersGiven(Withdraw, args);
  }

  /** signCreateSubAccount returns any producible request of its kind when called with the arguments that spell it. */
  lemma CreateSubAccountRoundTrip(c: TxClient, req: TxRequest, nonce: Option<Int64>, now: Instant,
                     parseOrders: seq<Byte> -> Option<seq<LegRequest>>)
    requires req.CreateSubAccountReq? && Producible(req) && nonce != Some(-1)
    ensures Sign(CreateSubAccount, Some(c), ArgsFor(req, nonce), now, parseOrders) == Success(Transaction(c, req, TransactOpts(nonce, 0)))
  {
    var args := ArgsFor(req, nonce);
    assert ArgsValidFrom(args, ArgNames(CreateSubAccount), 0);
    assert NumbersGiven(CreateSubAccount, args);
  }

  /** signCancelAllOrders returns any producible request of its kind when called with the arguments that spell it. */
  lemma CancelAllOrdersRoundTrip(c: TxClient, req: TxRequest, nonce: Option<Int64>, now: Instant,
                     parseOrders: seq<Byte> -> Option<seq<LegRequest>>)
    requires req.CancelAllOrdersReq? && Producible(req) && nonce != Some(-1)
    ensures Sign(CancelAllOrders, Some(c), ArgsFor(req, nonce), now, parseOrders) == Success(Transaction(c, req, TransactOpts(nonce, 0)))
  {
    var args := ArgsFor(req, nonce);
    assert ArgsValidFrom(args, ArgNames(CancelAllOrders), 0);
    assert NumbersGiven(CancelAllOrders, args);
  }

  /** signModifyOrder returns any producible request of its kind when called with the arguments that spell it. */
  lemma ModifyOrderRoundTrip(c: TxClient, req: TxRequest, nonce: Option<Int64>, now: Instant,
                     parseOrders: seq<Byte> -> Option<seq<LegRequest>>)
    requires req.ModifyOrderReq? && Producible(req) && nonce != Some(-1)
    ensures Sign(ModifyOrder, Some(c), ArgsFor(req, nonce), now, parseOrders) == Success(Transaction(c, req, TransactOpts(nonce, 0)))
  {
    var args := ArgsFor(req, nonce);
    assert ArgsValidFrom(args, ArgNames(ModifyOrder), 0);
    assert NumbersGiven(ModifyOrder, args);
  }

  /** signTransfer returns any producible request of its kind when called with the arguments that spell it. */
  lemma TransferRoundTrip(c: TxClient, req: TxRequest, nonce: Option<Int64>, now: Instant,
                     parseOrders: seq<Byte> -> Option<seq<LegRequest>>)
    requires req.TransferReq? && Producible(req) && nonce != Some(-1)
    ensures Sign(Transfer, Some(c), ArgsFor(req, nonce), now, parseOrders) == Success(Transaction(c, req, TransactOpts(nonce, 0)))
  {
    var args := ArgsFor(req, nonce);
    assert ArgsValidFrom(args, ArgNames(Transfer), 0);
    assert NumbersGiven(Transfer, args);
    MemoRoundTrip(req.memo);
  }

  /** signCreatePublicPool returns any producible request of its kind when called with the arguments that spell it. */
  lemma CreatePublicPoolRoundTrip(c: TxClient, req: TxRequest, nonce: Option<Int64>, now: Instant,
                     parseOrders: seq<Byte> -> Option<seq<LegRequest>>)
    requires req.CreatePublicPoolReq? && Producible(req) && nonce != Some(-1)
    ensures Sign(CreatePublicPool, Some(c), ArgsFor(req, nonce), now, parseOrders) == Success(Transaction(c, req, TransactOpts(nonce, 0)))
  {
    var args := ArgsFor(req, nonce);
    assert ArgsValidFrom(args, ArgNames(CreatePublicPool), 0);
    assert NumbersGiven(CreatePublicPool, args);
  }

  /** signUpdatePublicPool returns any producible request of its kind when called with the arguments that spell it. */
  lemma UpdatePublicPoolRoundTrip(c: TxClient, req: TxRequest, nonce: Option<Int64>, now: Instant,
                     parseOrders: seq<Byte> -> Option<seq<LegRequest>>)
    requires req.UpdatePublicPoolReq? && Producible(req) && nonce != Some(-1)
    ensures Sign(UpdatePublicPool, Some(c), ArgsFor(req, nonce), now, parseOrders) == Success(Transaction(c, req, TransactOpts(nonce, 0)))
  {
    var args := ArgsFor(req, nonce);
    assert ArgsValidFrom(args, ArgNames(UpdatePublicPool), 0);
    assert NumbersGiven(UpdatePublicPool, args);
  }

  /** signMintShares returns any producible request of its kind when called with the arguments that spell it. */
  lemma MintSharesRoundTrip(c: TxClient, req: TxRequest, nonce: Option<Int64>, now: Instant,
                     parseOrders: seq<Byte> -> Option<seq<LegRequest>>)
    requires req.MintSharesReq? && Producible(req) && nonce != Some(-1)
    ensures Sign(MintShares, Some(c), ArgsFor(req, nonce), now, parseOrders) == Success(Transaction(c, req, TransactOpts(nonce, 0)))
  {
    var args := ArgsFor(req, nonce);
    assert ArgsValidFrom(args, ArgNames(MintShares), 0);
    assert NumbersGiven(MintShares, args);
  }

  /** signBurnShares returns any producible request of its kind when called with the arguments that spell it. */
  lemma BurnSharesRoundTrip(c: TxClient, req: TxRequest, nonce: Option<Int64>, now: Instant,
                     parseOrders: seq<Byte> -> Option<seq<LegRequest>>)
    requires req.BurnSharesReq? && Producible(req) && nonce != Some(-1)
    ensures Sign(BurnShares, Some(c), ArgsFor(req, nonce), now, parseOrders) == Success(Transaction(c, req, TransactOpts(nonce, 0)))
  {
    var args := ArgsFor(req, nonce);
    assert ArgsValidFrom(args, ArgNames(BurnShares), 0);
    assert NumbersGiven(BurnShares, args);
  }

  /** signUpdateLeverage returns any producible request of its kind when called with the arguments that spell it. */
  lemma UpdateLeverageRoundTrip(c: TxClient, req: TxRequest, nonce: Option<Int64>, now: Instant,
                     parseOrders: seq<Byte> -> Option<seq<LegRequest>>)
    requires req.UpdateLeverageReq? && Producible(req) && nonce != Some(-1)
    ensures Sign(UpdateLeverage, Some(c), ArgsFor(req, nonce), now, parseOrders) == Success(Transaction(c, req, TransactOpts(nonce, 0)))
  {
    var args := ArgsFor(req, nonce);
    assert ArgsValidFrom(args, ArgNames(UpdateLeverage), 0);
    assert NumbersGiven(UpdateLeverage, args);
  }

  /** signUpdateMargin returns any producible request of its kind when called with the arguments that spell it. */
  lemma UpdateMarginRoundTrip(c: TxClient, req: TxRequest, nonce: Option<Int64>, now: Instant,
                     parseOrders: seq<Byte> -> Option<seq<LegRequest>>)
    requires req.UpdateMarginReq? && Producible(req) && nonce != Some(-1)
    ensures Sign(UpdateMargin, Some(c), ArgsFor(req, nonce), now, parseOrders) == Success(Transaction(c, req, TransactOpts(nonce, 0)))
  {
    var args := ArgsFor(req, nonce);
    assert ArgsValidFrom(args, ArgNames(UpdateMargin), 0);
    assert NumbersGiven(UpdateMargin, args);
  }

  /**
   * Every producible request, with any nonce choice, comes out of its sign
   * function unchanged when called with the arguments that spell it.
   */
  lemma SignRoundTrip(c: TxClient, req: TxRequest, nonce: Option<Int64>, now: Instant,
                      parseOrders: seq<Byte> -> Option<seq<LegRequest>>)
    requires Producible(req) && nonce != Some(-1)
    ensures Sign(KindOf(req), Some(c), ArgsFor(req, nonce), now, parseOrders) == Success(Transaction(c, req, TransactOpts(nonce, 0)))
  {
    if req.ChangePubKeyReq? {
      ChangePubKeyRoundTrip(c, req, nonce, now, parseOrders);
    } else if req.CreateOrderReq? {
      CreateOrderRoundTrip(c, req, nonce, now, parseOrders);
    } else if req.CancelOrderReq? {
      CancelOrderRoundTrip(c, req, nonce, now, parseOrders);
    } else if req.WithdrawReq? {
      WithdrawRoundTrip(c, req, nonce, now, parseOrders);
    } else if req.CreateSubAccountReq? {
      CreateSubAccountRoundTrip(c, req, nonce, now, parseOrders);
    } else if req.CancelAllOrdersReq? {
      CancelAllOrdersRoundTrip(c, req, nonce, now, parseOrders);
    } else if req.ModifyOrderReq? {
      ModifyOrderRoundTrip(c, req, nonce, now, parseOrders);
    } else if req.TransferReq? {
      TransferRoundTrip(c, req, nonce, now, parseOrders);
    } else if req.CreatePublicPoolReq? {
      CreatePublicPoolRoundTrip(c, req, nonce, now, parseOrders);
    } else if req.UpdatePublicPoolReq? {
      UpdatePublicPoolRoundTrip(c, req, nonce, now, parseOrders);
    } else if req.MintSharesReq? {
      MintSharesRoundTrip(c, req, nonce, now, parseOrders);
    } else if req.BurnSharesReq? {
      BurnSharesRoundTrip(c, req, nonce, now, parseOrders);
    } else if req.UpdateLeverageReq? {
      UpdateLeverageRoundTrip(c, req, nonce, now, parseOrders);
    } else if req.UpdateMarginReq? {
      UpdateMarginRoundTrip(c, req, nonce, now, parseOrders);
    }
  }

  /** The grouped-order counterpart: decodable legs, two or three of them, come out as their orders. */
  lemma GroupedOrdersRoundTrip(c: TxClient, groupingType: UInt8, ordersJSON: seq<Byte>, legs: seq<LegRequest>,
                               expiredAt: Int64, nonce: Option<Int64>, now: Instant,
                               parseOrders: seq<Byte> -> Option<seq<LegRequest>>)
    requires parseOrders(ordersJSON) == Some(legs) && 2 <= |legs| <= 3 && nonce != Some(-1)
    ensures Sign(CreateGroupedOrders, Some(c), [Number(groupingType), Str(ordersJSON), Number(expiredAt), Number(NonceArgument(nonce))], now, parseOrders)
              == Success(Transaction(c, CreateGroupedOrdersReq(groupingType, LegOrders(legs, now)), TransactOpts(nonce, ExpiredAtOption(expiredAt))))
  {
    var args := [Number(groupingType), Str(ordersJSON), Number(expiredAt), Number(NonceArgument(nonce))];
    assert ArgsValidFrom(args, ArgNames(CreateGroupedOrders), 0);
  }
}
