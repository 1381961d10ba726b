/**
 * The binding layer's signing identities: the active client pointer
 * `txClient` and the map `backupTxClients` from API-key index to client,
 * as `createClient`, `switchAPIKey` and `checkClient` use them.
 *
 * `client.NewTxClient` is a call into code outside the model; its outcome is a
 * parameter. On success the model's client records the indices it was built
 * with (what its GetApiKeyIndex/GetAccountIndex report); on failure it is
 * whatever NewTxClient returned, possibly nothing.
 */
module Registry {
  import opened GoTypes
  import opened Binding

  /** What client.NewTxClient produced: a fresh client (its opaque identity), or an error and whatever it returned beside it. */
  datatype NewClientOutcome = Created(handle: nat) | CreateFailed(returned: Option<TxClient>, reason: string)

  /** The arguments of createClient once extracted. */
  datatype ClientArgs = ClientArgs(url: seq<Byte>, privateKey: seq<Byte>, chainId: UInt32, apiKeyIndex: UInt8, accountIndex: Int64)

  const CreateClientArgNames: seq<string> := ["url", "privateKey", "chainId", "apiKeyIndex", "accountIndex"]
  const CheckClientArgNames: seq<string> := ["apiKeyIndex", "accountIndex"]
  const SwitchAPIKeyArgNames: seq<string> := ["apiKeyIndex"]

  /**
   * createClient up to the call of NewTxClient: the argument count, each
   * argument, the conversions (a non-number panics), then the account index,
   * which must be positive. Nothing here touches the registry.
   */
  function CreateClientArgs(args: seq<JsValue>): (r: Reply<ClientArgs>)
    ensures |args| != 5 ==> r == Failure(WrongArgCount("createClient"))
    ensures |args| == 5 && FirstArgError(args, CreateClientArgNames).Some? ==>
              r == Failure(FirstArgError(args, CreateClientArgNames).value)
    ensures r == Aborted <==>
              |args| == 5 && ArgsValidFrom(args, CreateClientArgNames, 0) &&
              !(args[2].Number? && args[3].Number? && args[4].Number?)
    ensures r == Failure(InvalidAccountIndex) <==>
              |args| == 5 && ArgsValidFrom(args, CreateClientArgNames, 0) &&
              args[2].Number? && args[3].Number? && args[4].Number? && args[4].n <= 0
    ensures r.Success? <==>
              |args| == 5 && ArgsValidFrom(args, CreateClientArgNames, 0) &&
              args[2].Number? && args[3].Number? && args[4].Number? && args[4].n > 0
    ensures r.Success? ==>
              && |args| == 5 && args[2].Number? && args[3].Number? && args[4].Number?
              && r.value == ClientArgs(StringOf(args[0]), StringOf(args[1]), Uint32Of(args[2].n), Uint8Of(args[3].n), args[4].n)
              && r.value.accountIndex > 0
  {
    if |args| != 5 then Failure(WrongArgCount("createClient"))
    else
      match FirstArgError(args, CreateClientArgNames)
      case Some(e) => Failure(e)
      case None =>
        if !(args[2].Number? && args[3].Number? && args[4].Number?) then Aborted
        else if args[4].n <= 0 then Failure(InvalidAccountIndex)
        else Success(ClientArgs(StringOf(args[0]), StringOf(args[1]), Uint32Of(args[2].n), Uint8Of(args[3].n), args[4].n))
  }

  /** switchAPIKey's argument: its count, its validity, then uint8 of the number. */
  function SwitchAPIKeyArgs(args: seq<JsValue>): (r: Reply<UInt8>)
    ensures |args| != 1 ==> r == Failure(WrongArgCount("switchAPIKey"))
    ensures |args| == 1 && (args[0].Null? || args[0].Undefined?) ==>
              r == Failure(FirstArgError(args, SwitchAPIKeyArgNames).value)
    ensures |args| == 1 && args[0].Null? ==> r == Failure(ArgumentNull("apiKeyIndex"))
    ensures |args| == 1 && args[0].Undefined? ==> r == Failure(ArgumentUndefined("apiKeyIndex"))
    ensures r == Aborted <==> |args| == 1 && !args[0].Null? && !args[0].Undefined? && !args[0].Number?
    ensures r.Success? <==> |args| == 1 && args[0].Number?
    ensures r.Success? ==> r.value == Uint8Of(args[0].n)
  {
    if |args| != 1 then Failure(WrongArgCount("switchAPIKey"))
    else
      match FirstArgError(args, SwitchAPIKeyArgNames)
      case Some(e) => Failure(e)
      case None =>
        if !args[0].Number? then Aborted
        else Success(Uint8Of(args[0].n))
  }

  /**
   * checkClient's arguments: no arguments at all is its own error, then the
   * count, each argument, and the conversions. A panic here is recovered into
   * an error reply, because checkClient names its result.
   */
  function CheckClientArgs(args: seq<JsValue>): (r: Reply<(UInt8, Int64)>)
    ensures |args| == 0 ==> r == Failure(NoArgumentsProvided)
    ensures |args| != 0 && |args| != 2 ==> r == Failure(WrongArgCount("checkClient"))
    ensures |args| == 2 && FirstArgError(args, CheckClientArgNames).Some? ==>
              r == Failure(FirstArgError(args, CheckClientArgNames).value)
    ensures |args| == 2 && ArgsValidFrom(args, CheckClientArgNames, 0) && !(args[0].Number? && args[1].Number?) ==>
              r == Failure(Panicked)
    ensures r.Success? <==> |args| == 2 && args[0].Number? && args[1].Number?
    ensures r.Success? ==> r.value == (Uint8Of(args[0].n), args[1].n)
    ensures r != Aborted
  {
    if |args| == 0 then Failure(NoArgumentsProvided)
    else if |args| != 2 then Failure(WrongArgCount("checkClient"))
    else
      match FirstArgError(args, CheckClientArgNames)
      case Some(e) => Failure(e)
      case None =>
        if !(args[0].Number? && args[1].Number?) then Failure(Panicked)
        else Success((Uint8Of(args[0].n), args[1].n))
  }

  class ClientRegistry {
    var txClient: Option<TxClient>
    var backupTxClients: map<UInt8, TxClient>

    /** Every stored client sits under its own API-key index and belongs to a positive account index. */
    ghost predicate Valid()
      reads this
    {
      forall k :: k in backupTxClients ==> backupTxClients[k].apiKeyIndex == k && backupTxClients[k].accountIndex > 0
    }

    /** The state before any call: no active client, and the map (nil in Go) empty. */
    constructor ()
      ensures Valid()
      ensures txClient == None && backupTxClients == map[]
    {
      txClient := None;
      backupTxClients := map[];
    }

    /**
     * createClient. The active pointer is assigned from NewTxClient's result
     * before its error is checked, so a failed creation still replaces it;
     * the map is written only on success.
     */
    method CreateClient(args: seq<JsValue>, newTxClient: NewClientOutcome) returns (r: Reply<()>)
      requires Valid()
      modifies this
      ensures Valid()
      ensures CreateClientArgs(args).Failure? ==>
                && r == Failure(CreateClientArgs(args).err)
                && txClient == old(txClient) && backupTxClients == old(backupTxClients)
      ensures CreateClientArgs(args).Aborted? ==>
                r == Aborted && txClient == old(txClient) && backupTxClients == old(backupTxClients)
      ensures CreateClientArgs(args).Success? && newTxClient.Created? ==>
                var a := CreateClientArgs(args).value;
                var c := TxClient(newTxClient.handle, a.apiKeyIndex, a.accountIndex, a.chainId);
                && r == Success(())
                && txClient == Some(c)
                && backupTxClients == old(backupTxClients)[a.apiKeyIndex := c]
      ensures CreateClientArgs(args).Success? && newTxClient.CreateFailed? ==>
                && r == Failure(CreateClientFailed(newTxClient.reason))
                && txClient == newTxClient.returned
                && backupTxClients == old(backupTxClients)
    {
      var parsed := CreateClientArgs(args);
      if parsed.Failure? {
        return Failure(parsed.err);
      } else if parsed.Aborted? {
        return Aborted;
      }
      var a := parsed.value;
      match newTxClient
      case Created(h) =>
        txClient := Some(TxClient(h, a.apiKeyIndex, a.accountIndex, a.chainId));
        backupTxClients := backupTxClients[a.apiKeyIndex := txClient.value];
        r := Success(());
      case CreateFailed(returned, reason) =>
        txClient := returned;
        r := Failure(CreateClientFailed(reason));
    }

    /** switchAPIKey: an O(1) lookup; on a miss the active client is left as it was. */
    method SwitchAPIKey(args: seq<JsValue>) returns (r: Reply<()>)
      requires Valid()
      modifies this`txClient
      ensures Valid()
      ensures backupTxClients == old(backupTxClients)
      ensures !SwitchAPIKeyArgs(args).Success? ==> txClient == old(txClient)
      ensures SwitchAPIKeyArgs(args).Failure? ==> r == Failure(SwitchAPIKeyArgs(args).err)
      ensures SwitchAPIKeyArgs(args).Aborted? ==> r == Aborted
      ensures SwitchAPIKeyArgs(args).Success? ==>
                var k := SwitchAPIKeyArgs(args).value;
                if k in backupTxClients then
                  && r == Success(())
                  && txClient == Some(backupTxClients[k])
                  && txClient.value.apiKeyIndex == k
                else
                  r == Failure(NoClientForApiKey) && txClient == old(txClient)
    {
      var parsed := SwitchAPIKeyArgs(args);
      if parsed.Failure? {
        return Failure(parsed.err);
      } else if parsed.Aborted? {
        return Aborted;
      }
      var apiKeyIndex := parsed.value;
      if apiKeyIndex !in backupTxClients {
        return Failure(NoClientForApiKey);
      }
      txClient := Some(backupTxClients[apiKeyIndex]);
      r := Success(());
    }

    /**
     * checkClient up to the remote key comparison: the stored client for the
     * key must exist and report the same API-key and account indices. A
     * success stands for "the local checks passed"; the network comparison
     * that follows is outside the model.
     */
    function CheckClient(args: seq<JsValue>): (r: Reply<TxClient>)
      reads this
      ensures r != Aborted
      ensures CheckClientArgs(args).Failure? ==> r == Failure(CheckClientArgs(args).err)
      ensures CheckClientArgs(args).Success? ==>
                var (k, account) := CheckClientArgs(args).value;
                && (r == Failure(ApiKeyNotRegistered) <==> k !in backupTxClients)
                && (r.Success? <==> k in backupTxClients && backupTxClients[k].apiKeyIndex == k && backupTxClients[k].accountIndex == account)
                && (r.Success? ==> r.value == backupTxClients[k])
                && (k in backupTxClients && backupTxClients[k].apiKeyIndex == k && backupTxClients[k].accountIndex != account ==>
                      r == Failure(AccountIndexMismatch(backupTxClients[k].accountIndex, account)))
    {
      match CheckClientArgs(args)
      case Failure(e) => Failure(e)
      case Aborted => Aborted
      case Success((apiKeyIndex, accountIndex)) =>
        if apiKeyIndex !in backupTxClients then Failure(ApiKeyNotRegistered)
        else
          var client := backupTxClients[apiKeyIndex];
          if client.apiKeyIndex != apiKeyIndex then
            Failure(ApiKeyIndexMismatch(client.apiKeyIndex, apiKeyIndex))
          else if client.accountIndex != accountIndex then
            Failure(AccountIndexMismatch(client.accountIndex, accountIndex))
          else Success(client)
    }

    /** With the registry's invariant, the API-key mismatch branch of checkClient can never be taken. */
    lemma CheckClientKeyNeverMismatches(args: seq<JsValue>)
      requires Valid()
      ensures !(CheckClient(args).Failure? && CheckClient(args).err.ApiKeyIndexMismatch?)
    {
    }
  }

  /**
   * A failed creation leaves no active client even though an earlier one is
   * still registered; switching back to that key restores it.
   */
  method FailedCreationThenSwitchBack()
  {
    var reg := new ClientRegistry();
    var first := [Str([]), Str([]), Number(304), Number(1), Number(7)];
    var r1 := reg.CreateClient(first, Created(0));
    assert r1 == Success(());
    var c1 := TxClient(0, 1, 7, 304);
    assert reg.txClient == Some(c1);

    var second := [Str([]), Str([]), Number(304), Number(2), Number(7)];
    var r2 := reg.CreateClient(second, CreateFailed(None, "invalid private key"));
    assert r2.Failure?;
    assert reg.txClient == None;
    assert 2 !in reg.backupTxClients && reg.backupTxClients[1] == c1;

    var r3 := reg.SwitchAPIKey([Number(1)]);
    assert r3 == Success(()) && reg.txClient == Some(c1);
  }
}
