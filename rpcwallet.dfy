/**
  The wallet RPC plugin's handlers. Those that only read are functions of the
  `Context`; those that end in `SignAndShowResult` are methods of `RpcWallet`, whose
  `log` records every transaction the wallet applied and every relay, in order.
 */
module Plugins {
  import opened Wrappers
  import opened Payloads
  import opened Json
  import opened Fixed8
  import opened CoinQueries
  import opened Requests
  import opened Finishing

  /** `WalletVerify`: access is denied when no wallet is open or the wallet's time lock is locked. */
  function WalletVerify(ctx: Context): (r: Option<Error>)
    ensures r.None? <==> ctx.wallet.Some? && !ctx.locked
    ensures r.Some? ==> r.value == AccessDenied
  {
    if ctx.wallet.None? || ctx.locked then Some(AccessDenied) else None
  }

  /** `getwalletheight`: one less than the wallet's height, and zero for a wallet at height zero. */
  function GetWalletHeight(ctx: Context): (r: Result<nat, Error>)
    ensures WalletVerify(ctx).Some? ==> r == Failure(AccessDenied)
    ensures WalletVerify(ctx).None? ==> r.Success?
    ensures r.Success? && ctx.wallet.value.height > 0 ==> r.value + 1 == ctx.wallet.value.height
    ensures r.Success? && ctx.wallet.value.height == 0 ==> r.value == 0
  {
    if WalletVerify(ctx).Some? then Failure(AccessDenied)
    else
      var h := ctx.wallet.value.height;
      Success(if h > 0 then h - 1 else 0)
  }

  // ---------------------------------------------------------------------------
  // getbalance

  datatype BalanceReply = TokenBalance(balance: BigDecimal) | GlobalBalance(total: int, confirmed: int)

  /** The asset at index 0, as a token id or a global asset id. */
  function BalanceKey(lib: Lib, ps: seq<JValue>): (r: Result<AssetKey, Error>)
    ensures r.Success? <==> Text(ps, 0).Success? && lib.uintBase(Text(ps, 0).value).Some?
    ensures r.Success? ==> lib.uintBase(Text(ps, 0).value) == Some(r.value)
    ensures r.Failure? ==> r.error == Fault
  {
    var t :- Text(ps, 0);
    Parsed(lib.uintBase(t))
  }

  /**
    `getbalance`: a token's available balance; for a global asset, the value of its
    unspent coins and of those among them that are confirmed.
   */
  function GetBalance(ctx: Context, ps: seq<JValue>): (r: Result<BalanceReply, Error>)
    ensures WalletVerify(ctx).Some? ==> r == Failure(AccessDenied)
    ensures WalletVerify(ctx).None? && BalanceKey(ctx.lib, ps).Failure? ==> r == Failure(Fault)
    ensures r.Success? <==> WalletVerify(ctx).None? && BalanceKey(ctx.lib, ps).Success?
    ensures r.Success? && BalanceKey(ctx.lib, ps).value.Token? ==>
            r.value == TokenBalance(ctx.wallet.value.available(BalanceKey(ctx.lib, ps).value.token))
    ensures r.Success? && BalanceKey(ctx.lib, ps).value.Global? ==>
            var coins := ctx.wallet.value.coins;
            var asset := BalanceKey(ctx.lib, ps).value.global;
            r.value == GlobalBalance(Balance(coins, asset), ConfirmedBalance(coins, asset))
  {
    if WalletVerify(ctx).Some? then Failure(AccessDenied)
    else
      var key :- BalanceKey(ctx.lib, ps);
      var w := ctx.wallet.value;
      match key
      case Token(t) => Success(TokenBalance(w.available(t)))
      case Global(a) =>
        var unspent := Where(w.coins, UnspentOf(a));
        Success(GlobalBalance(Sum(unspent), Sum(Where(unspent, IsConfirmed()))))
  }

  /** A global asset's confirmed balance never exceeds its balance when no coin value is negative. */
  lemma GetBalanceConfirmedAtMost(ctx: Context, ps: seq<JValue>)
    requires GetBalance(ctx, ps).Success? && GetBalance(ctx, ps).value.GlobalBalance?
    requires NonNegative(ctx.wallet.value.coins)
    ensures GetBalance(ctx, ps).value.confirmed <= GetBalance(ctx, ps).value.total
  {
    ConfirmedAtMostBalance(ctx.wallet.value.coins, BalanceKey(ctx.lib, ps).value.global);
  }

  // ---------------------------------------------------------------------------
  // getutxos

  /** The asset `getutxos` lists: the aliases "bhp" and "gas", any other id parsed, the governing token by default. */
  function UtxoAsset(chain: Chain, lib: Lib, ps: seq<JValue>): (r: Result<UInt256, Error>)
    ensures |ps| < 2 ==> r == Success(chain.governingToken)
    ensures |ps| >= 2 && ps[1] == JString("bhp") ==> r == Success(chain.governingToken)
    ensures |ps| >= 2 && ps[1] == JString("gas") ==> r == Success(chain.utilityToken)
    ensures |ps| >= 2 && ps[1].JString? && ps[1].text != "bhp" && ps[1].text != "gas" ==>
            r == Parsed(lib.uint256(ps[1].text))
    ensures |ps| >= 2 && !ps[1].JString? ==> r == Failure(Fault)
    ensures r.Failure? ==> r.error == Fault
  {
    if |ps| >= 2 then
      var t :- AsString(ps[1]);
      if t == "bhp" then Success(chain.governingToken)
      else if t == "gas" then Success(chain.utilityToken)
      else Parsed(lib.uint256(t))
    else Success(chain.governingToken)
  }

  /** `getutxos`: the references of the wallet's unspent coins of the resolved asset held by the given address. */
  function GetUtxos(ctx: Context, ps: seq<JValue>): (r: Result<seq<CoinReference>, Error>)
    ensures WalletVerify(ctx).Some? ==> r == Failure(AccessDenied)
    ensures r.Success? ==>
            && WalletVerify(ctx).None?
            && Address(ctx.lib, ps, 0).Success?
            && UtxoAsset(ctx.chain, ctx.lib, ps).Success?
            && r.value == Utxos(ctx.wallet.value.unspentCoins, UtxoAsset(ctx.chain, ctx.lib, ps).value, Address(ctx.lib, ps, 0).value)
    ensures WalletVerify(ctx).None? && Address(ctx.lib, ps, 0).Success? && UtxoAsset(ctx.chain, ctx.lib, ps).Success? ==> r.Success?
    ensures WalletVerify(ctx).None? && Address(ctx.lib, ps, 0).Failure? ==> r == Failure(Fault)
    ensures WalletVerify(ctx).None? && UtxoAsset(ctx.chain, ctx.lib, ps).Failure? ==> r == Failure(Fault)
  {
    if WalletVerify(ctx).Some? then Failure(AccessDenied)
    else
      var owner :- Address(ctx.lib, ps, 0);
      var coins := ctx.wallet.value.unspentCoins;
      var asset :- UtxoAsset(ctx.chain, ctx.lib, ps);
      Success(Refs(Where(coins, HeldBy(asset, owner))))
  }

  // ---------------------------------------------------------------------------
  // getunclaimedgas

  datatype UnclaimedGas = UnclaimedGas(available: int, unavailable: int)

  /** The references of the wallet's unspent coins of the governing token. */
  function GoverningRefs(w: Wallet, chain: Chain): (r: seq<CoinReference>)
    ensures forall i :: 0 <= i < |w.unspentCoins| && w.unspentCoins[i].output.assetId == chain.governingToken
              ==> w.unspentCoins[i].reference in r
    ensures forall x :: x in r ==>
              exists c :: c in w.unspentCoins && c.output.assetId == chain.governingToken && c.reference == x
  {
    RefsWhere(w.unspentCoins, OfAsset(chain.governingToken));
    Refs(Where(w.unspentCoins, OfAsset(chain.governingToken)))
  }

  /**
    `getunclaimedgas`: the bonus of every unclaimed coin is available; the bonus the
    governing-token coins accrue up to the next block is unavailable, and reads as zero
    when the ledger cannot compute it.
   */
  function GetUnclaimedGas(ctx: Context): (r: Result<UnclaimedGas, Error>)
    ensures WalletVerify(ctx).Some? ==> r == Failure(AccessDenied)
    ensures WalletVerify(ctx).None? ==> r.Success?
    ensures r.Success? ==> r.value.available == ctx.chain.bonus(Refs(ctx.wallet.value.unclaimedCoins))
    ensures r.Success? ==>
            var u := ctx.chain.bonusUntil(GoverningRefs(ctx.wallet.value, ctx.chain), ctx.chain.height + 1);
            r.value.unavailable == (if u.Some? then u.value else 0)
  {
    if WalletVerify(ctx).Some? then Failure(AccessDenied)
    else
      var w := ctx.wallet.value;
      var unavailable := ctx.chain.bonusUntil(GoverningRefs(w, ctx.chain), ctx.chain.height + 1).GetOr(0);
      Success(UnclaimedGas(ctx.chain.bonus(Refs(w.unclaimedCoins)), unavailable))
  }

  /** With at most 50 unclaimed coins, `claimgas` claims exactly the amount `getunclaimedgas` reports as available. */
  lemma ClaimMatchesAvailable(ctx: Context, ps: seq<JValue>)
    requires GetUnclaimedGas(ctx).Success?
    requires |ctx.wallet.value.unclaimedCoins| <= MaxClaimsAmount
    requires ClaimTransaction(ctx.wallet.value, ctx.chain, ctx.lib, ps).Success?
    ensures ClaimTransaction(ctx.wallet.value, ctx.chain, ctx.lib, ps).value.outputs[0].value
         == GetUnclaimedGas(ctx).value.available
  {
    var refs := Refs(ctx.wallet.value.unclaimedCoins);
    assert refs[..|refs|] == refs;
  }

  // ---------------------------------------------------------------------------
  // invoke, invokefunction, invokescript (post-processing)

  datatype InvokeOutcome = NoWallet | TxField(tx: Option<Tx>)

  /** The invocation transaction handed to `MakeTransaction`: version 1, the script and gas, and nothing else. */
  function InvocationTx(script: seq<bv8>, gas: int): (r: Tx)
    ensures r.body == InvocationBody(script, gas) && r.version == 1
    ensures r.inputs == [] && r.attributes == [] && r.outputs == [] && r.witnesses == []
  {
    Tx(InvocationBody(script, gas), 1, [], [], [], [])
  }

  /** The signed transaction, or null when none was made or the signatures are incomplete. */
  function Completed(sign: Tx -> Signing, made: Option<Tx>): (r: Option<Tx>)
    ensures r.Some? <==> made.Some? && sign(made.value).completed
    ensures r.Some? ==> r.value == Signed(made.value, sign(made.value))
  {
    if made.None? then None
    else
      var s := sign(made.value);
      if s.completed then Some(Signed(made.value, s)) else None
  }

  /** The invocation result's script, decoded from hex, and its consumed gas, parsed as Fixed8. */
  function InvokeInputs(lib: Lib, result: JValue): (r: Result<(seq<bv8>, int), Error>)
    ensures r.Success? <==>
            && FieldText(result, "script").Success? && lib.hexBytes(FieldText(result, "script").value).Some?
            && FieldText(result, "gas_consumed").Success? && lib.fixed8(FieldText(result, "gas_consumed").value).Some?
    ensures r.Success? ==>
            && lib.hexBytes(FieldText(result, "script").value) == Some(r.value.0)
            && lib.fixed8(FieldText(result, "gas_consumed").value) == Some(r.value.1)
    ensures r.Failure? ==> r.error == Fault
  {
    var scriptText :- FieldText(result, "script");
    var script :- Parsed(lib.hexBytes(scriptText));
    var gasText :- FieldText(result, "gas_consumed");
    var consumed :- Parsed(lib.fixed8(gasText));
    Success((script, consumed))
  }

  /**
    `ProcessInvoke`: with a wallet open, the invocation becomes a transaction whose gas is
    the consumed gas less the free allowance, clamped and rounded up; the `tx` field is
    that transaction once made and fully signed, else null.
   */
  method ProcessInvoke(wallet: Option<Wallet>, lib: Lib, result: JValue) returns (r: Result<InvokeOutcome, Error>)
    ensures wallet.None? ==> r == Success(NoWallet)
    ensures wallet.Some? && InvokeInputs(lib, result).Failure? ==> r == Failure(Fault)
    ensures wallet.Some? && InvokeInputs(lib, result).Success? ==>
            var w := wallet.value;
            var script := InvokeInputs(lib, result).value.0;
            var consumed := InvokeInputs(lib, result).value.1;
            r == Success(TxField(Completed(w.sign, w.make(MakeFrom(InvocationTx(script, InvokeGas(consumed)), 0)))))
  {
    if wallet.None? {
      return Success(NoWallet);
    }
    var w := wallet.value;
    var scriptText :- FieldText(result, "script");
    var script :- Parsed(lib.hexBytes(scriptText));
    var gasText :- FieldText(result, "gas_consumed");
    var gas :- Parsed(lib.fixed8(gasText));
    ghost var consumed := gas;
    gas := gas - FreeGas;
    if gas < 0 {
      gas := 0;
    }
    gas := Ceiling(gas);
    assert gas == InvokeGas(consumed);
    var tx := w.make(MakeFrom(InvocationTx(script, gas), 0));
    if tx.Some? {
      var signing := w.sign(tx.value);
      if signing.completed {
        tx := Some(Signed(tx.value, signing));
      } else {
        tx := None;
      }
    }
    r := Success(TxField(tx));
  }

  // ---------------------------------------------------------------------------
  // The handlers that finish through SignAndShowResult

  /** What `MakeTransaction` returns for a request that passed validation. */
  function Made(w: Wallet, req: Result<MakeRequest, Error>): (r: Result<Option<Tx>, Error>)
    ensures r.Success? <==> req.Success?
    ensures req.Success? ==> r.value == w.make(req.value)
    ensures req.Failure? ==> r.error == req.error
  {
    match req
    case Failure(e) => Failure(e)
    case Success(q) => Success(w.make(q))
  }

  /** The reply and the effects of a handler once access was granted: its own error, or the finishing step. */
  function Reply(ctx: Context, built: Result<Option<Tx>, Error>, asHex: bool): Finished
    requires ctx.wallet.Some?
  {
    match built
    case Failure(e) => Finished(Failure(e), [])
    case Success(tx) => Finish(ctx.wallet.value.sign, ctx.lib.size, tx, asHex)
  }

  class RpcWallet {
    /** Transactions the wallet applied and transactions relayed to the network, in order. */
    ghost var log: seq<Event>

    constructor ()
      ensures log == []
    {
      log := [];
    }

    /** The finishing step: sign, then return the context, reject, or apply, relay and show. */
    method SignAndShowResult(w: Wallet, size: Tx -> nat, tx: Option<Tx>, asHex: bool) returns (r: Result<Shown, Error>)
      modifies this
      ensures r == Finish(w.sign, size, tx, asHex).result
      ensures log == old(log) + Finish(w.sign, size, tx, asHex).effects
    {
      if tx.None? {
        return Failure(InsufficientFunds);
      }
      var signing := w.sign(tx.value);
      if signing.completed {
        var signed := Signed(tx.value, signing);
        if size(signed) > MaxTransactionSize {
          return Failure(TransactionTooLarge);
        }
        log := log + [Applied(signed)];
        log := log + [Relayed(signed)];
        r := Success(Finalized(signed, asHex));
      } else {
        r := Success(Incomplete(tx.value, signing));
      }
    }

    /** Claim the bonus of the wallet's unclaimed coins. */
    method ClaimGas(ctx: Context, ps: seq<JValue>) returns (r: Result<Shown, Error>)
      modifies this
      ensures WalletVerify(ctx).Some? ==> r == Failure(AccessDenied) && log == old(log)
      ensures WalletVerify(ctx).None? ==>
              var built := ClaimTransaction(ctx.wallet.value, ctx.chain, ctx.lib, ps);
              var f := Reply(ctx, if built.Success? then Success(Some(built.value)) else Failure(built.error), false);
              r == f.result && log == old(log) + f.effects
    {
      var denied := WalletVerify(ctx);
      if denied.Some? {
        return Failure(denied.value);
      }
      var w := ctx.wallet.value;
      var tx :- ClaimTransaction(w, ctx.chain, ctx.lib, ps);
      r := SignAndShowResult(w, ctx.lib.size, Some(tx), false);
    }

    /** Send one amount of an asset from a given address. */
    method SendFrom(ctx: Context, ps: seq<JValue>) returns (r: Result<Shown, Error>)
      modifies this
      ensures WalletVerify(ctx).Some? ==> r == Failure(AccessDenied) && log == old(log)
      ensures WalletVerify(ctx).None? ==>
              var f := Reply(ctx, Made(ctx.wallet.value, TransferRequest(ctx.chain, ctx.lib, ps, true)), false);
              r == f.result && log == old(log) + f.effects
    {
      var denied := WalletVerify(ctx);
      if denied.Some? {
        return Failure(denied.value);
      }
      var w := ctx.wallet.value;
      var req :- TransferRequest(ctx.chain, ctx.lib, ps, true);
      var tx := w.make(req);
      r := SignAndShowResult(w, ctx.lib.size, tx, false);
    }

    /** Send one amount of an asset to an address; `gettransactiondata` asks for hex with `asHex`. */
    method SendToAddress(ctx: Context, ps: seq<JValue>, asHex: bool) returns (r: Result<Shown, Error>)
      modifies this
      ensures WalletVerify(ctx).Some? ==> r == Failure(AccessDenied) && log == old(log)
      ensures WalletVerify(ctx).None? ==>
              var f := Reply(ctx, Made(ctx.wallet.value, TransferRequest(ctx.chain, ctx.lib, ps, false)), asHex);
              r == f.result && log == old(log) + f.effects
    {
      var denied := WalletVerify(ctx);
      if denied.Some? {
        return Failure(denied.value);
      }
      var w := ctx.wallet.value;
      var req :- TransferRequest(ctx.chain, ctx.lib, ps, false);
      var tx := w.make(req);
      r := SignAndShowResult(w, ctx.lib.size, tx, asHex);
    }

    /** Send several outputs, optionally from a given address. */
    method SendMany(ctx: Context, ps: seq<JValue>) returns (r: Result<Shown, Error>)
      modifies this
      ensures WalletVerify(ctx).Some? ==> r == Failure(AccessDenied) && log == old(log)
      ensures WalletVerify(ctx).None? ==>
              var f := Reply(ctx, Made(ctx.wallet.value, SendManyRequest(ctx.chain, ctx.lib, ps)), false);
              r == f.result && log == old(log) + f.effects
    {
      var denied := WalletVerify(ctx);
      if denied.Some? {
        return Failure(denied.value);
      }
      var w := ctx.wallet.value;
      var req := BuildSendMany(ctx.chain, ctx.lib, ps);
      if req.Failure? {
        return Failure(req.error);
      }
      var tx := w.make(req.value);
      r := SignAndShowResult(w, ctx.lib.size, tx, false);
    }

    /** Issue amounts of a global asset to several addresses. */
    method SendIssueTransaction(ctx: Context, ps: seq<JValue>) returns (r: Result<Shown, Error>)
      modifies this
      ensures WalletVerify(ctx).Some? ==> r == Failure(AccessDenied) && log == old(log)
      ensures WalletVerify(ctx).None? ==>
              var f := Reply(ctx, Made(ctx.wallet.value, IssueRequest(ctx.chain, ctx.lib, ps)), false);
              r == f.result && log == old(log) + f.effects
    {
      var denied := WalletVerify(ctx);
      if denied.Some? {
        return Failure(denied.value);
      }
      var w := ctx.wallet.value;
      var req := BuildIssue(ctx.chain, ctx.lib, ps);
      if req.Failure? {
        return Failure(req.error);
      }
      var tx := w.make(req.value);
      r := SignAndShowResult(w, ctx.lib.size, tx, false);
    }
  }
}
