# lighter-go signer core, modelled in Dafny

This project models two parts of the lighter-go signer.

**The layer-2 margin-update transaction** (`L2UpdateMarginTxInfo`). The model covers:
- its ordered bounds validation;
- its type tag and signed-hash getters;
- the nine field elements, in order, that its `Hash` feeds to Poseidon2.

**The WebAssembly binding layer** (`sharedlib/sharedlib_syscall.go`). The model covers:
- the active signing client `txClient` and the per-API-key table `backupTxClients`;
- how `createClient`, `switchAPIKey` and the local part of `checkClient` read and update them;
- the front half of every exported `sign*` function and of `createAuthToken`: the argument count, `validateArg`, the `Value.Int()`/`Value.String()` conversions with Go's integer casts, and the normalisation that follows.

The normalisation consists of:
- the `-1` nonce sentinel;
- the `-1` order-expiry and `expiredAt` sentinels;
- the `0` auth-deadline sentinel;
- hex decoding of the public key and the transfer memo;
- building the legs of a grouped order.

## Modules

| file | module | contents |
|---|---|---|
| `go_types.dfy` | `GoTypes` | Go integer widths, the truncating casts, `Option`/`Result` |
| `hexutil.dfy` | `HexUtil` | `hexutil.Decode` as the binding uses it, with a hex `Encode` as a right inverse |
| `update_margin.dfy` | `UpdateMarginTx` | the margin-update record, `Validate`, `GetTxType`, `GetTxHash`, the hash input, `Hash` |
| `binding.dfy` | `Binding` | JavaScript values, `validateArg`, the shared argument check, the conversions, the error replies |
| `registry.dfy` | `Registry` | the class `ClientRegistry` holding `txClient` and `backupTxClients` |
| `normalise.dfy` | `Normalise` | sentinels, clock defaults, memo and public-key parsing, Go's `copy` |
| `sign_requests.dfy` | `SignRequests` | every sign function and `createAuthToken` up to the call into the client |

## How the model represents the program

**Errors and panics.**
- Each exported function ends in a `Reply`: a `Success`, a `Failure` carrying one constructor per error message, or `Aborted`.
- `Aborted` covers the case where `Value.Int()` panics on a non-number. The deferred `recover` then swallows the panic and the function returns `nil`, so JavaScript receives `null`.
- `checkClient` names its result, so there the recovered panic becomes an error reply (`Panicked`).

**Values from outside the model.**
- JavaScript strings are the UTF-8 bytes Go sees, so a memo's length is a byte length.
- JavaScript numbers are integers that fit an `int64`.
- Any other JavaScript value carries the text `Value.String()` renders for it.
- The wall clock is a parameter `now`, in nanoseconds since the epoch.
- `client.NewTxClient`, the JSON decoding of `ordersJSON` and the Poseidon2 hash are also parameters.

**A worked scenario.** `Registry.FailedCreationThenSwitchBack` walks through `createClient` succeeding for key 1, failing for key 2 (which clears the active client while key 1 stays registered), and `switchAPIKey` back to key 1 restoring it (sharedlib/sharedlib_syscall.go:164-176 and 1811-1820).

**Where the sign functions stop.** They end at the request and options handed to the transaction builder. The builder itself is not modelled.

## Model

| member | source | states |
|---|---|---|
| `UpdateMarginTx.Validate` | types/txtypes/update_margin.go:22-48 | returns no error iff every bound holds; an error it returns is violated by the record, and no check earlier in the order is violated |
| `UpdateMarginTx.WithinBoundsIffNoViolation` | types/txtypes/update_margin.go:22-48 | the record is within bounds iff it violates none of the eight checks |
| `UpdateMarginTx.FirstFailureIsUnique` | types/txtypes/update_margin.go:22-48 | if an error is violated and no earlier one is, `Validate` returns exactly that error |
| `UpdateMarginTx.AmountSignIrrelevant` | types/txtypes/update_margin.go:14 | only a zero amount is refused; swapping one non-zero amount for another, negative or positive, does not change the verdict |
| `UpdateMarginTx.ValidateIgnoresDirectionAndSignature` | types/txtypes/update_margin.go:22-48 | direction, signature and signed hash play no part in validation |
| `UpdateMarginTx.AccountIndexBoundary` | types/txtypes/update_margin.go:23-25 | the lower account bound is exclusive: the minimum is refused and the index after it passes |
| `UpdateMarginTx.GetTxType` | types/txtypes/update_margin.go:50-52 | the type tag is the margin-update constant |
| `UpdateMarginTx.GetTxHash` | types/txtypes/update_margin.go:54-56 | the hash reported is the stored signed hash |
| `UpdateMarginTx.HashInputRoundTrip` | types/txtypes/update_margin.go:63-75 | decoding the nine constructor terms gives back the chain id and every signed field, each from its own slot |
| `UpdateMarginTx.DecodedInputIsHashInput` | types/txtypes/update_margin.go:63-75 | every sequence of constructor terms the decoder accepts is the hash input of what it decodes to |
| `UpdateMarginTx.HashInputInjective` | types/txtypes/update_margin.go:63-75 | two records whose nine constructor terms are equal agree on chain id and on every signed field |
| `UpdateMarginTx.HashInputCarriesTxType` | types/txtypes/update_margin.go:65-66 | the input has nine elements and starts with the chain id and the type tag |
| `UpdateMarginTx.Hash` | types/txtypes/update_margin.go:62-78 | the appends build exactly the canonical nine-element input; the digest is the hash of it; the error is always nil and `extra` is ignored |
| `Binding.ValidateArg` | sharedlib/sharedlib_syscall.go:26-36 | missing iff the index is past the end; null and undefined reported by name; otherwise no error |
| `Binding.FirstArgErrorFrom` | sharedlib/sharedlib_syscall.go:119-143 | no error iff every named argument passes; otherwise the error of some argument whose predecessors all pass |
| `Binding.FirstArgErrorNeverMissing` | sharedlib/sharedlib_syscall.go:112-143 | once the count matches, an argument error is a null or undefined one, never a missing one |
| `Binding.ValidateArgs` | sharedlib/sharedlib_syscall.go:411-418 | the loop returns the first failing argument's error, the same one the sequence of checks gives |
| `Binding.Preamble` | sharedlib/sharedlib_syscall.go:294-317 | count first, then each argument, then the client; passes iff count, arguments and client are all in order |
| `Binding.IntOf` | sharedlib/sharedlib_syscall.go:148-150 | `Value.Int()` yields a number exactly for number values, and that number is the value's own; `IntArgs` reads every argument through it |
| `Binding.StringOf` | sharedlib/sharedlib_syscall.go:964 | `Value.String()` gives a string's own bytes and renders a number as `<number: ` followed by its decimal digits and `>` |
| `Binding.DigitsDenote` | sharedlib/sharedlib_syscall.go:964 | the decimal digits of a number read back as that number |
| `Binding.DecimalDenotes` | sharedlib/sharedlib_syscall.go:964 | the decimal rendering of an integer is a minus sign for negatives followed by digits that read back as its magnitude |
| `Binding.NumberRenderingIsShort` | sharedlib/sharedlib_syscall.go:964 | a number read with `Value.String()` renders in at most 30 bytes |
| `HexUtil.Decode` | sharedlib/sharedlib_syscall.go:324 | the empty-input and missing-prefix errors occur exactly when those conditions hold; a non-hex byte is a syntax error even when the digit count is odd; an odd count of valid digits is a length error; success exactly for a prefix plus an even number of hex digits; each output byte is the value of its two digits, upper or lower case |
| `HexUtil.DecodeEncode` | sharedlib/sharedlib_syscall.go:978 | decoding "0x" plus the hex of any bytes gives those bytes back |
| `Registry.CreateClientArgs` | sharedlib/sharedlib_syscall.go:111-157 | the count, the first argument error, a panic iff a numeric argument is not a number, and the refusal of a non-positive account index; success exactly when the arguments are valid numbers with a positive account index; a success carries the converted values |
| `Registry.SwitchAPIKeyArgs` | sharedlib/sharedlib_syscall.go:1790-1805 | the count error; a null or undefined argument gets validateArg's named error; a non-number aborts; a number succeeds as its `uint8` |
| `Registry.CheckClientArgs` | sharedlib/sharedlib_syscall.go:199-227 | no arguments is its own error; then the count; then validateArg's error for the first failing argument; a non-number becomes the recovered-panic error reply, never an abort; success exactly for two numbers |
| `Registry.ClientRegistry.constructor` | sharedlib/sharedlib_syscall.go:20-23 | no active client and an empty table |
| `Registry.ClientRegistry.CreateClient` | sharedlib/sharedlib_syscall.go:102-184 | argument failures change nothing; a failed creation still replaces the active client and leaves the table alone; a success makes the new client active and files it under its key; the table invariant is kept |
| `Registry.ClientRegistry.SwitchAPIKey` | sharedlib/sharedlib_syscall.go:1781-1826 | the table never changes; a registered key makes its client active; an unknown key is refused and leaves the active client as it was |
| `Registry.ClientRegistry.CheckClient` | sharedlib/sharedlib_syscall.go:200-249 | unregistered key refused; a stored client with another account index gets the account-mismatch error naming both indices; success iff the stored client reports the same key and account; the stored client is the one returned |
| `Registry.ClientRegistry.CheckClientKeyNeverMismatches` | sharedlib/sharedlib_syscall.go:237-242 | with the table invariant, the API-key mismatch error cannot occur |
| `Normalise.NonceOption` | sharedlib/sharedlib_syscall.go:342-345 | no nonce iff the argument is -1, otherwise that nonce |
| `Normalise.NonceArgumentRoundTrip` | sharedlib/sharedlib_syscall.go:342-345 | every nonce argument survives the trip to an option and back |
| `Normalise.NonceOptionRoundTrip` | sharedlib/sharedlib_syscall.go:342-345 | every option except an explicit -1 survives the trip to an argument and back |
| `Normalise.DefaultOrderExpiry` | sharedlib/sharedlib_syscall.go:442 | the default expiry is the current millisecond plus 28 days |
| `Normalise.OrderExpiry` | sharedlib/sharedlib_syscall.go:441-443 | -1 becomes the default, anything else is kept; the result is never -1 |
| `Normalise.OrderExpiryIdempotent` | sharedlib/sharedlib_syscall.go:441-443 | normalising twice, at any two instants, equals normalising once |
| `Normalise.DefaultAuthDeadline` | sharedlib/sharedlib_syscall.go:1757 | the default deadline is the current second plus seven hours |
| `Normalise.AuthDeadline` | sharedlib/sharedlib_syscall.go:1756-1758 | 0 becomes the default, anything else is kept; the result is never 0 |
| `Normalise.ExpiredAtOption` | sharedlib/sharedlib_syscall.go:1700-1702 | -1 leaves ExpiredAt at zero, anything else is used |
| `Normalise.CopyBytes` | sharedlib/sharedlib_syscall.go:989 | `copy` keeps the destination's length, takes the source's bytes where it has them and leaves the rest; equal lengths copy the source exactly |
| `Normalise.CopyInto` | sharedlib/sharedlib_syscall.go:335-336 | the in-place copy into a fixed array leaves exactly what `copy` specifies and reports the shorter length; it stands alone, as the array form of the copy that `ParsePubKey` and `ParseMemo` state with `CopyBytes` |
| `Normalise.ParseMemo` | sharedlib/sharedlib_syscall.go:967-990 | empty means 32 zero bytes; another length than 64 is refused; 64 hex digits succeed and any other 64 bytes give a hex syntax error; a success is 32 bytes, each the value of its two digits, upper or lower case |
| `Normalise.MemoSizeErrorUnreachable` | sharedlib/sharedlib_syscall.go:984-988 | the "must be exactly 32 bytes" branch can never be taken |
| `Normalise.MemoRoundTrip` | sharedlib/sharedlib_syscall.go:967-990 | the hex text of any 32 bytes parses back to those bytes |
| `Normalise.NumberMemoRejected` | sharedlib/sharedlib_syscall.go:964-976 | a number passed as the memo is refused for its length |
| `Normalise.ParsePubKey` | sharedlib/sharedlib_syscall.go:323-336 | a decode error is reported as a format error, a decoded length other than 40 as a length error; success exactly when the text decodes to 40 bytes, and then those are the key |
| `Normalise.PubKeyRoundTrip` | sharedlib/sharedlib_syscall.go:323-336 | the prefixed hex of any 40-byte key parses back to that key |
| `SignRequests.ArgNames` | sharedlib/sharedlib_syscall.go:411 | every sign function validates the nonce last |
| `SignRequests.LegOrders` | sharedlib/sharedlib_syscall.go:1669-1688 | one order per leg, in order, each the leg's normalised order |
| `SignRequests.LegOrdersNormalised` | sharedlib/sharedlib_syscall.go:1671-1687 | each grouped leg has client order index 0 and a real expiry, and keeps the given expiry, market, amount and prices |
| `SignRequests.IntArgs` | sharedlib/sharedlib_syscall.go:428-438 | the numbers read are the numbers given, position by position |
| `SignRequests.ChangePubKeyRequest` | sharedlib/sharedlib_syscall.go:323-341 | the request carries the parsed key, and fails exactly as key parsing fails |
| `SignRequests.TransferRequest` | sharedlib/sharedlib_syscall.go:961-998 | the amounts pass through unchanged with the parsed memo, and the request fails exactly as memo parsing fails |
| `SignRequests.GroupedOrdersRequest` | sharedlib/sharedlib_syscall.go:1654-1694 | a JSON error first, then a leg count outside 2..3; a success has two or three orders built from the decoded legs |
| `SignRequests.Request` | sharedlib/sharedlib_syscall.go:427-457 | the request has the function's kind; only the pubkey, memo and orders-JSON arguments can make it fail |
| `SignRequests.Build` | sharedlib/sharedlib_syscall.go:458-461 | the nonce option comes from the last argument; only grouped orders set ExpiredAt |
| `SignRequests.Sign` | sharedlib/sharedlib_syscall.go:492-545 | the checks' errors come first; past them, a non-number aborts the call; never a missing-argument error; once the checks pass and the numbers are numbers, it fails exactly when building the request fails, with that error; a success is a call on the active client with the function's kind and the nonce from the last argument |
| `SignRequests.SignClientIndependent` | sharedlib/sharedlib_syscall.go:524-529 | the request does not depend on which client is active, only on there being one |
| `SignRequests.SignCreateOrder` | sharedlib/sharedlib_syscall.go:394-461 | the imperative function, with its loop over argument names, agrees with the specification for every input |
| `SignRequests.BuildLegOrders` | sharedlib/sharedlib_syscall.go:1669-1688 | the loop builds exactly the normalised orders of the legs |
| `SignRequests.SignCreateGroupedOrders` | sharedlib/sharedlib_syscall.go:1590-1702 | the imperative function agrees with the specification for every input |
| `SignRequests.GroupedOrdersShape` | sharedlib/sharedlib_syscall.go:1654-1688 | a signed grouped order holds two or three legs decoded from the JSON, each with client order index 0 and a real expiry |
| `SignRequests.CreateAuthToken` | sharedlib/sharedlib_syscall.go:1733-1758 | a non-number deadline aborts before the client check; extra arguments are ignored; success iff a client exists; the deadline is never 0 and is the given one unless that is 0 |
| `SignRequests.ChangePubKeyConversions` | sharedlib/sharedlib_syscall.go:320-345 | past the checks, the key parser's error is the reply; otherwise the parsed key with the nonce option |
| `SignRequests.CreateOrderConversions` | sharedlib/sharedlib_syscall.go:428-461 | past the checks, the order carries the market index, flags and order type as `uint8` casts, price and trigger price as `uint32` casts, and the normalised expiry |
| `SignRequests.CancelOrderConversions` | sharedlib/sharedlib_syscall.go:533-545 | past the checks, the market index is the `uint8` cast and the order index is as given |
| `SignRequests.WithdrawConversions` | sharedlib/sharedlib_syscall.go:612-622 | past the checks, the amount is the `uint64` cast, so a negative number wraps |
| `SignRequests.CreateSubAccountConversions` | sharedlib/sharedlib_syscall.go:684-690 | past the checks, the call carries only the nonce option |
| `SignRequests.CancelAllOrdersConversions` | sharedlib/sharedlib_syscall.go:762-774 | past the checks, the time-in-force is the `uint8` cast and the time is as given |
| `SignRequests.ModifyOrderConversions` | sharedlib/sharedlib_syscall.go:861-879 | past the checks, the market index is the `uint8` cast and both prices the `uint32` casts |
| `SignRequests.TransferConversions` | sharedlib/sharedlib_syscall.go:961-1002 | past the checks, the memo parser's error is the reply; otherwise the three numbers as given with the parsed memo |
| `SignRequests.CreatePublicPoolConversions` | sharedlib/sharedlib_syscall.go:1097-1111 | past the checks, every number is passed as given |
| `SignRequests.UpdatePublicPoolConversions` | sharedlib/sharedlib_syscall.go:1193-1209 | past the checks, the status is the `uint8` cast and the rest as given |
| `SignRequests.MintSharesConversions` | sharedlib/sharedlib_syscall.go:1281-1293 | past the checks, every number is passed as given |
| `SignRequests.BurnSharesConversions` | sharedlib/sharedlib_syscall.go:1365-1377 | past the checks, every number is passed as given |
| `SignRequests.UpdateLeverageConversions` | sharedlib/sharedlib_syscall.go:1454-1468 | past the checks, market index and margin mode are `uint8` casts and the margin fraction the `uint16` cast |
| `SignRequests.UpdateMarginConversions` | sharedlib/sharedlib_syscall.go:1545-1559 | past the checks, market index and direction are `uint8` casts and the amount is as given |
| `SignRequests.CreateGroupedOrdersConversions` | sharedlib/sharedlib_syscall.go:1636-1702 | past the checks, the JSON error, then the count error; otherwise the grouping type as the `uint8` cast, the built legs, the nonce option and ExpiredAt |
| `SignRequests.CancelOrderMarketIndexWraps` | sharedlib/sharedlib_syscall.go:533 | a market index of 300 reaches the builder as 44, the `uint8` wrap-around |
| `SignRequests.NumberPubKeyRejected` | sharedlib/sharedlib_syscall.go:320-329 | a number passed as the key is refused for a missing "0x" prefix |
| `SignRequests.NumberMemoRefused` | sharedlib/sharedlib_syscall.go:964-976 | a transfer whose memo argument is a number is refused for the memo's length |
| `SignRequests.Int64For` | sharedlib/sharedlib_syscall.go:612 | every `uint64` withdrawal amount is the conversion of some `int64` argument |
| `SignRequests.ChangePubKeyRoundTrip` | sharedlib/sharedlib_syscall.go:319-345 | any 40-byte key and nonce choice come out of signChangePubKey unchanged from their spelling as arguments |
| `SignRequests.CreateOrderRoundTrip` | sharedlib/sharedlib_syscall.go:427-461 | any order with a real expiry comes out of signCreateOrder unchanged |
| `SignRequests.CancelOrderRoundTrip` | sharedlib/sharedlib_syscall.go:532-545 | any cancel request comes out of signCancelOrder unchanged |
| `SignRequests.WithdrawRoundTrip` | sharedlib/sharedlib_syscall.go:611-622 | any `uint64` amount comes out of signWithdraw unchanged |
| `SignRequests.CreateSubAccountRoundTrip` | sharedlib/sharedlib_syscall.go:683-690 | signCreateSubAccount passes the nonce choice through |
| `SignRequests.CancelAllOrdersRoundTrip` | sharedlib/sharedlib_syscall.go:761-774 | any cancel-all request comes out of signCancelAllOrders unchanged |
| `SignRequests.ModifyOrderRoundTrip` | sharedlib/sharedlib_syscall.go:860-879 | any modify request comes out of signModifyOrder unchanged |
| `SignRequests.TransferRoundTrip` | sharedlib/sharedlib_syscall.go:960-1002 | any transfer with a 32-byte memo comes out of signTransfer unchanged |
| `SignRequests.CreatePublicPoolRoundTrip` | sharedlib/sharedlib_syscall.go:1096-1111 | any pool-creation request comes out of signCreatePublicPool unchanged |
| `SignRequests.UpdatePublicPoolRoundTrip` | sharedlib/sharedlib_syscall.go:1192-1209 | any pool-update request comes out of signUpdatePublicPool unchanged |
| `SignRequests.MintSharesRoundTrip` | sharedlib/sharedlib_syscall.go:1280-1293 | any mint request comes out of signMintShares unchanged |
| `SignRequests.BurnSharesRoundTrip` | sharedlib/sharedlib_syscall.go:1364-1377 | any burn request comes out of signBurnShares unchanged |
| `SignRequests.UpdateLeverageRoundTrip` | sharedlib/sharedlib_syscall.go:1453-1468 | any leverage request comes out of signUpdateLeverage unchanged |
| `SignRequests.UpdateMarginRoundTrip` | sharedlib/sharedlib_syscall.go:1544-1559 | any margin request comes out of signUpdateMargin unchanged |
| `SignRequests.SignRoundTrip` | sharedlib/sharedlib_syscall.go:284-1587 | every producible request of the fourteen single-request kinds, with any nonce choice, comes out unchanged |
| `SignRequests.GroupedOrdersRoundTrip` | sharedlib/sharedlib_syscall.go:1635-1702 | decodable legs, two or three of them, come out as their orders with the nonce and ExpiredAt as given |

## Left out

- The transaction builders (`txClient.Get*Transaction`, `GetAuthToken`) are foreign code. Each sign function is modelled up to the call, and the call is its result.
- The JSON re-marshalling and the `MessageToSign` field are left out. So are the response envelope and the builder's own errors.
- The remote part of `checkClient` (fetching the registered API key over HTTP and comparing public keys) is network I/O and is not modelled.
- `generateAPIKey`, `GetTxInfo`, `main` and the registration of the JavaScript exports are outside the core.
- Cryptography is foreign: Poseidon2, the Goldilocks field conversions and key management. `Elem` constructors and a hash parameter stand for them.
- `Registry.ClientRegistry.CreateClient`: a client that `NewTxClient` creates is assumed to report the API-key and account indices it was built with.
- `SignRequests.BuildLegOrders`: every leg uses one instant `now`, while Go reads the clock afresh for each leg. Legs with a -1 expiry can therefore differ by the time the loop takes.
- JavaScript numbers are modelled as integers within `int64`. Fractional numbers, NaN, infinities and the precision limit of doubles (which bounds the `uint64` amounts JavaScript can actually pass) are not modelled.
- `hexutil.Decode` is go-ethereum library code and is not part of this model. It is specified from its documented behaviour: it checks emptiness, the prefix, the digits and the length, in that order.
- `UpdateMarginTx.HashInputInjective`, `UpdateMarginTx.HashInputRoundTrip` and `UpdateMarginTx.DecodedInputIsHashInput` treat the field-element constructors as free terms. They state which field fills which slot, not that the field elements differ: `FromInt64` reduces an int64 modulo the Goldilocks prime, which is smaller than 2^64, and nothing bounds the size of `USDCAmount`, so two valid records can share a hash input in the program.
- `UpdateMarginTx`: the protocol bounds and the type-tag constant are defined in files that are not part of this model. They are left as constants of unknown value.
- The deferred `recover` in the sign functions writes the panic message into a response that is never returned. The model keeps only the outcome, which is that JavaScript receives `null` (`Aborted`).
