/**
  Validation and construction of the requests the sending handlers hand to
  `Wallet.MakeTransaction`, and of the claim transaction `claimgas` signs directly.
  None of these functions can see the wallet's `make`: every rejection they produce
  happens before `MakeTransaction` is called.
 */
module Requests {
  import opened Wrappers
  import opened Payloads
  import opened Json
  import opened Fixed8
  import opened CoinQueries

  /** The fee at index `i`: zero when absent, else the Fixed8 amount its text parses to. */
  function OptionalFee(lib: Lib, ps: seq<JValue>, i: nat): (r: Result<int, Error>)
    ensures |ps| <= i ==> r == Success(0)
    ensures i < |ps| ==> (r.Success? <==> ps[i].JString? && lib.fixed8(ps[i].text).Some?)
    ensures i < |ps| && r.Success? ==> lib.fixed8(ps[i].text) == Some(r.value)
    ensures r.Failure? ==> r.error == Fault
  {
    if i < |ps| then
      var t :- AsString(ps[i]);
      Parsed(lib.fixed8(t))
    else Success(0)
  }

  /** The address at index `i`: null when absent, else the script hash its text converts to. */
  function OptionalAddress(lib: Lib, ps: seq<JValue>, i: nat): (r: Result<Option<UInt160>, Error>)
    ensures |ps| <= i ==> r == Success(None)
    ensures i < |ps| ==> (r.Success? <==> ps[i].JString? && lib.scriptHash(ps[i].text).Some?)
    ensures i < |ps| && r.Success? ==> r.value == lib.scriptHash(ps[i].text)
    ensures r.Failure? ==> r.error == Fault
  {
    if i < |ps| then
      var t :- AsString(ps[i]);
      var h :- Parsed(lib.scriptHash(t));
      Success(Some(h))
    else Success(None)
  }

  /** The required address at index `i`, as a script hash. */
  function Address(lib: Lib, ps: seq<JValue>, i: nat): (r: Result<UInt160, Error>)
    ensures r.Success? <==> i < |ps| && ps[i].JString? && lib.scriptHash(ps[i].text).Some?
    ensures r.Success? ==> lib.scriptHash(ps[i].text) == Some(r.value)
    ensures r.Failure? ==> r.error == Fault
  {
    var t :- Text(ps, i);
    Parsed(lib.scriptHash(t))
  }

  /**
    The outputs built from a list of entries by a loop that stops at the first entry
    that throws: that entry's error, or one output per entry.
   */
  function Collect<T(==)>(items: seq<JValue>, f: JValue -> Result<T, Error>): (r: Result<seq<T>, Error>)
    ensures r.Success? ==> |r.value| == |items|
    ensures r.Success? ==> forall k :: 0 <= k < |items| ==> f(items[k]) == Success(r.value[k])
    ensures r.Failure? ==> exists k :: 0 <= k < |items| && f(items[k]) == Failure(r.error)
    ensures (forall k :: 0 <= k < |items| ==> f(items[k]).Success?) ==> r.Success?
    decreases |items|
  {
    if |items| == 0 then Success([])
    else
      match Collect(items[..|items| - 1], f)
      case Failure(e) => Failure(e)
      case Success(done) =>
        match f(items[|items| - 1])
        case Failure(e) => Failure(e)
        case Success(o) => Success(done + [o])
  }

  /** Appending an entry that succeeds appends its output. */
  lemma CollectSnoc<T>(items: seq<JValue>, x: JValue, f: JValue -> Result<T, Error>, done: seq<T>, o: T)
    requires Collect(items, f) == Success(done) && f(x) == Success(o)
    ensures Collect(items + [x], f) == Success(done + [o])
  {
    assert (items + [x])[..|items|] == items;
  }

  /** The first entry that fails decides the error of the whole list. */
  lemma {:induction false} CollectFirstFailure<T>(items: seq<JValue>, f: JValue -> Result<T, Error>, k: nat)
    requires k < |items| && f(items[k]).Failure?
    requires forall j :: 0 <= j < k ==> f(items[j]).Success?
    ensures Collect(items, f) == Failure(f(items[k]).error)
    decreases |items|
  {
    var n := |items|;
    var prefix := items[..n - 1];
    if k < n - 1 {
      CollectFirstFailure(prefix, f, k);
    }
  }

  /** A failing list has a first failing entry, and that entry's error is the list's. */
  lemma {:induction false} CollectFailureIsFirst<T>(items: seq<JValue>, f: JValue -> Result<T, Error>)
    requires Collect(items, f).Failure?
    ensures exists k :: 0 <= k < |items| && f(items[k]) == Failure(Collect(items, f).error)
                        && forall j :: 0 <= j < k ==> f(items[j]).Success?
    decreases |items|
  {
    var n := |items|;
    var prefix := items[..n - 1];
    if Collect(prefix, f).Failure? {
      CollectFailureIsFirst(prefix, f);
      var k :| 0 <= k < |prefix| && f(prefix[k]) == Failure(Collect(prefix, f).error)
               && forall j :: 0 <= j < k ==> f(prefix[j]).Success?;
      assert items[k] == prefix[k];
    } else {
      assert forall j :: 0 <= j < n - 1 ==> items[j] == prefix[j];
      assert f(items[n - 1]).Failure?;
    }
  }

  // ---------------------------------------------------------------------------
  // sendfrom and sendtoaddress

  /** The positional arguments before the fee: asset, sender (sendfrom only), recipient, amount. */
  datatype TransferHead = TransferHead(asset: AssetKey, from: Option<UInt160>, to: UInt160, value: BigDecimal)

  /** `sendfrom` has the sender at index 1, so every later argument sits one index further on. */
  function TransferOffset(withFrom: bool): nat {
    if withFrom then 1 else 0
  }

  /**
    The asset id at index 0, the sender at index 1 (`sendfrom` only), the recipient and
    the amount, parsed in the asset's decimals, at the next two indices.
   */
  function ParseTransferHead(chain: Chain, lib: Lib, ps: seq<JValue>, withFrom: bool): (r: Result<TransferHead, Error>)
    ensures r.Success? ==> (r.value.from.Some? <==> withFrom)
    ensures r.Success? ==>
            var o := TransferOffset(withFrom);
            && Text(ps, 0).Success? && lib.uintBase(Text(ps, 0).value) == Some(r.value.asset)
            && chain.decimals(r.value.asset).Some?
            && (withFrom ==> Address(lib, ps, 1) == Success(r.value.from.value))
            && Address(lib, ps, o + 1) == Success(r.value.to)
            && Text(ps, o + 2).Success?
            && lib.bigDecimal(Text(ps, o + 2).value, chain.decimals(r.value.asset).value) == Some(r.value.value)
    ensures var o := TransferOffset(withFrom);
            && Text(ps, 0).Success? && lib.uintBase(Text(ps, 0).value).Some?
            && chain.decimals(lib.uintBase(Text(ps, 0).value).value).Some?
            && (withFrom ==> Address(lib, ps, 1).Success?)
            && Address(lib, ps, o + 1).Success?
            && Text(ps, o + 2).Success?
            && lib.bigDecimal(Text(ps, o + 2).value, chain.decimals(lib.uintBase(Text(ps, 0).value).value).value).Some?
            ==> r.Success?
    ensures r.Failure? ==> r.error == Fault
  {
    var o := TransferOffset(withFrom);
    var assetText :- Text(ps, 0);
    var asset :- Parsed(lib.uintBase(assetText));
    var decimals :- Parsed(chain.decimals(asset));
    var from :- if withFrom then (var h :- Address(lib, ps, 1); Success(Some(h))) else Success(None);
    var to :- Address(lib, ps, o + 1);
    var valueText :- Text(ps, o + 2);
    var value :- Parsed(lib.bigDecimal(valueText, decimals));
    Success(TransferHead(asset, from, to, value))
  }

  /**
    `sendfrom` (`withFrom`) and `sendtoaddress`: one transfer output, a fee that defaults
    to zero, and a change address that defaults to null.
   */
  function TransferRequest(chain: Chain, lib: Lib, ps: seq<JValue>, withFrom: bool): (r: Result<MakeRequest, Error>)
    ensures ParseTransferHead(chain, lib, ps, withFrom).Failure? ==> r == Failure(Fault)
    ensures ParseTransferHead(chain, lib, ps, withFrom).Success?
            && ParseTransferHead(chain, lib, ps, withFrom).value.value.value <= 0
            ==> r == Failure(InvalidParams)
    ensures ParseTransferHead(chain, lib, ps, withFrom).Success?
            && ParseTransferHead(chain, lib, ps, withFrom).value.value.value > 0
            && OptionalFee(lib, ps, TransferOffset(withFrom) + 3).Success?
            && OptionalFee(lib, ps, TransferOffset(withFrom) + 3).value < 0
            ==> r == Failure(InvalidParams)
    ensures r == Failure(InvalidParams) ==>
            ParseTransferHead(chain, lib, ps, withFrom).Success?
            && (ParseTransferHead(chain, lib, ps, withFrom).value.value.value <= 0
                || (OptionalFee(lib, ps, TransferOffset(withFrom) + 3).Success?
                    && OptionalFee(lib, ps, TransferOffset(withFrom) + 3).value < 0))
    ensures r.Success? ==>
            var h := ParseTransferHead(chain, lib, ps, withFrom).value;
            && r.value.MakeTransfer?
            && r.value.outputs == [TransferOutput(h.asset, h.value, h.to)]
            && r.value.from == h.from
            && h.value.value > 0
            && r.value.fee >= 0
            && OptionalFee(lib, ps, TransferOffset(withFrom) + 3) == Success(r.value.fee)
            && OptionalAddress(lib, ps, TransferOffset(withFrom) + 4) == Success(r.value.changeAddress)
    ensures ParseTransferHead(chain, lib, ps, withFrom).Success?
            && ParseTransferHead(chain, lib, ps, withFrom).value.value.value > 0
            && OptionalFee(lib, ps, TransferOffset(withFrom) + 3).Success?
            && OptionalFee(lib, ps, TransferOffset(withFrom) + 3).value >= 0
            && OptionalAddress(lib, ps, TransferOffset(withFrom) + 4).Success?
            ==> r.Success?
    ensures r.Failure? ==> r.error == Fault || r.error == InvalidParams
    ensures r.Success? && |ps| <= TransferOffset(withFrom) + 3 ==> r.value.fee == 0
    ensures r.Success? && |ps| <= TransferOffset(withFrom) + 4 ==> r.value.changeAddress.None?
  {
    var o := TransferOffset(withFrom);
    var h :- ParseTransferHead(chain, lib, ps, withFrom);
    if h.value.value <= 0 then Failure(InvalidParams)
    else
      var fee :- OptionalFee(lib, ps, o + 3);
      if fee < 0 then Failure(InvalidParams)
      else
        var change :- OptionalAddress(lib, ps, o + 4);
        Success(MakeTransfer([TransferOutput(h.asset, h.value, h.to)], h.from, change, fee))
  }

  /** The request with `from` set, as a sender argument sets it. */
  function WithSender(r: Result<MakeRequest, Error>, h: UInt160): Result<MakeRequest, Error> {
    if r.Success? && r.value.MakeTransfer? then Success(r.value.(from := Some(h))) else r
  }

  /** `sendfrom` is `sendtoaddress` with a sender inserted at index 1: the other arguments mean the same. */
  lemma SendFromShift(chain: Chain, lib: Lib, asset: JValue, s: string, rest: seq<JValue>, h: UInt160)
    requires lib.scriptHash(s) == Some(h)
    ensures TransferRequest(chain, lib, [asset, JString(s)] + rest, true)
         == WithSender(TransferRequest(chain, lib, [asset] + rest, false), h)
  {
    var ps, qs := [asset, JString(s)] + rest, [asset] + rest;
    assert forall i :: 1 <= i < |qs| ==> ps[i + 1] == qs[i];
    assert Text(ps, 0) == Text(qs, 0);
    assert Address(lib, ps, 1) == Success(h);
    assert Address(lib, ps, 2) == Address(lib, qs, 1);
    assert Text(ps, 3) == Text(qs, 2);
    assert OptionalFee(lib, ps, 4) == OptionalFee(lib, qs, 3);
    assert OptionalAddress(lib, ps, 5) == OptionalAddress(lib, qs, 4);
  }

  // ---------------------------------------------------------------------------
  // sendmany

  /**
    The output one entry `{asset, value, address}` of `sendmany` describes, before its
    sign is checked: the asset id, the amount in that asset's decimals, the recipient.
   */
  function ParseManyEntry(chain: Chain, lib: Lib, item: JValue): (r: Result<TransferOutput, Error>)
    ensures r.Success? ==>
            && FieldText(item, "asset").Success?
            && lib.uintBase(FieldText(item, "asset").value) == Some(r.value.assetId)
            && chain.decimals(r.value.assetId).Some?
            && FieldText(item, "value").Success?
            && lib.bigDecimal(FieldText(item, "value").value, chain.decimals(r.value.assetId).value) == Some(r.value.value)
            && FieldText(item, "address").Success?
            && lib.scriptHash(FieldText(item, "address").value) == Some(r.value.scriptHash)
    ensures && FieldText(item, "asset").Success?
            && lib.uintBase(FieldText(item, "asset").value).Some?
            && chain.decimals(lib.uintBase(FieldText(item, "asset").value).value).Some?
            && FieldText(item, "value").Success?
            && lib.bigDecimal(FieldText(item, "value").value,
                              chain.decimals(lib.uintBase(FieldText(item, "asset").value).value).value).Some?
            && FieldText(item, "address").Success?
            && lib.scriptHash(FieldText(item, "address").value).Some?
            ==> r.Success?
    ensures r.Failure? ==> r.error == Fault
  {
    var assetText :- FieldText(item, "asset");
    var asset :- Parsed(lib.uintBase(assetText));
    var decimals :- Parsed(chain.decimals(asset));
    var valueText :- FieldText(item, "value");
    var value :- Parsed(lib.bigDecimal(valueText, decimals));
    var addressText :- FieldText(item, "address");
    var address :- Parsed(lib.scriptHash(addressText));
    Success(TransferOutput(asset, value, address))
  }

  /** The entry's output once its amount is checked: a parsed amount of sign at most zero gives -32602. */
  function ManyEntry(chain: Chain, lib: Lib, item: JValue): (r: Result<TransferOutput, Error>)
    ensures ParseManyEntry(chain, lib, item).Failure? ==> r == Failure(Fault)
    ensures ParseManyEntry(chain, lib, item).Success? && ParseManyEntry(chain, lib, item).value.value.value <= 0
            ==> r == Failure(InvalidParams)
    ensures ParseManyEntry(chain, lib, item).Success? && ParseManyEntry(chain, lib, item).value.value.value > 0
            ==> r == ParseManyEntry(chain, lib, item)
    ensures r.Success? ==> r.value.value.value > 0
  {
    var o :- ParseManyEntry(chain, lib, item);
    if o.value.value <= 0 then Failure(InvalidParams) else Success(o)
  }

  function ManyEntryFn(chain: Chain, lib: Lib): JValue -> Result<TransferOutput, Error> {
    item => ManyEntry(chain, lib, item)
  }

  /** 1 when a leading string names the sender, else 0: the shift of every later index. */
  function ManyOffset(ps: seq<JValue>): nat {
    if |ps| > 0 && ps[0].JString? then 1 else 0
  }

  /** The sender: `_params[0]` when it is a string, else null. */
  function ManyFrom(lib: Lib, ps: seq<JValue>): (r: Result<Option<UInt160>, Error>)
    ensures r.Failure? <==> |ps| == 0 || (ps[0].JString? && lib.scriptHash(ps[0].text).None?)
    ensures r.Failure? ==> r.error == Fault
    ensures r.Success? ==> (r.value.Some? <==> ps[0].JString?)
    ensures r.Success? && r.value.Some? ==> lib.scriptHash(ps[0].text) == r.value
  {
    if |ps| == 0 then Failure(Fault)
    else if ps[0].JString? then
      var h :- Parsed(lib.scriptHash(ps[0].text));
      Success(Some(h))
    else Success(None)
  }

  /** `sendmany`: a non-empty list of positive outputs, one per entry, and a fee that is not negative. */
  function SendManyRequest(chain: Chain, lib: Lib, ps: seq<JValue>): (r: Result<MakeRequest, Error>)
    ensures r.Success? ==>
            var o := ManyOffset(ps);
            && r.value.MakeTransfer?
            && o < |ps| && ps[o].JArray?
            && 0 < |r.value.outputs| == |ps[o].items|
            && (forall k :: 0 <= k < |ps[o].items| ==>
                  ManyEntry(chain, lib, ps[o].items[k]) == Success(r.value.outputs[k])
                  && r.value.outputs[k].value.value > 0)
            && (r.value.from.Some? <==> ps[0].JString?)
            && ManyFrom(lib, ps) == Success(r.value.from)
            && r.value.fee >= 0
            && OptionalFee(lib, ps, o + 1) == Success(r.value.fee)
            && OptionalAddress(lib, ps, o + 2) == Success(r.value.changeAddress)
    ensures ManyFrom(lib, ps).Success? && ArrayParam(ps, ManyOffset(ps)) == Success([])
            ==> r == Failure(InvalidParams)
    ensures r.Failure? ==> r.error == Fault || r.error == InvalidParams
    ensures r == Failure(InvalidParams) ==>
            var o := ManyOffset(ps);
            && ManyFrom(lib, ps).Success?
            && o < |ps| && ps[o].JArray?
            && (|ps[o].items| == 0
                || (exists k :: 0 <= k < |ps[o].items|
                      && ParseManyEntry(chain, lib, ps[o].items[k]).Success?
                      && ParseManyEntry(chain, lib, ps[o].items[k]).value.value.value <= 0)
                || (OptionalFee(lib, ps, o + 1).Success? && OptionalFee(lib, ps, o + 1).value < 0))
    ensures var o := ManyOffset(ps);
            && ManyFrom(lib, ps).Success?
            && o < |ps| && ps[o].JArray? && |ps[o].items| > 0
            && (forall k :: 0 <= k < |ps[o].items| ==> ManyEntry(chain, lib, ps[o].items[k]).Success?)
            && OptionalFee(lib, ps, o + 1).Success? && OptionalFee(lib, ps, o + 1).value >= 0
            && OptionalAddress(lib, ps, o + 2).Success?
            ==> r.Success?
  {
    var from :- ManyFrom(lib, ps);
    var o := ManyOffset(ps);
    var to :- ArrayParam(ps, o);
    if |to| == 0 then Failure(InvalidParams)
    else
      var outputs :- Collect(to, ManyEntryFn(chain, lib));
      var fee :- OptionalFee(lib, ps, o + 1);
      if fee < 0 then Failure(InvalidParams)
      else
        var change :- OptionalAddress(lib, ps, o + 2);
        Success(MakeTransfer(outputs, from, change, fee))
  }

  /** A leading sender string only sets `from`: the rest is read one index further on. */
  lemma SendManyShift(chain: Chain, lib: Lib, s: string, rest: seq<JValue>, h: UInt160)
    requires lib.scriptHash(s) == Some(h)
    requires |rest| > 0 && !rest[0].JString?
    ensures SendManyRequest(chain, lib, [JString(s)] + rest) == WithSender(SendManyRequest(chain, lib, rest), h)
  {
    var ps := [JString(s)] + rest;
    assert forall i :: 0 <= i < |rest| ==> ps[i + 1] == rest[i];
    assert ManyOffset(ps) == 1 && ManyOffset(rest) == 0;
    assert ArrayParam(ps, 1) == ArrayParam(rest, 0);
    assert OptionalFee(lib, ps, 2) == OptionalFee(lib, rest, 1);
    assert OptionalAddress(lib, ps, 3) == OptionalAddress(lib, rest, 2);
  }

  /** An entry with a non-positive amount rejects the request, unless an earlier entry already threw. */
  lemma SendManyRejectsNonPositive(chain: Chain, lib: Lib, ps: seq<JValue>, k: nat)
    requires ManyFrom(lib, ps).Success?
    requires ManyOffset(ps) < |ps| && ps[ManyOffset(ps)].JArray?
    requires k < |ps[ManyOffset(ps)].items|
    requires ParseManyEntry(chain, lib, ps[ManyOffset(ps)].items[k]).Success?
    requires ParseManyEntry(chain, lib, ps[ManyOffset(ps)].items[k]).value.value.value <= 0
    requires forall j :: 0 <= j < k ==>
               ParseManyEntry(chain, lib, ps[ManyOffset(ps)].items[j]).Success?
               && ParseManyEntry(chain, lib, ps[ManyOffset(ps)].items[j]).value.value.value > 0
    ensures SendManyRequest(chain, lib, ps) == Failure(InvalidParams)
  {
    CollectFirstFailure(ps[ManyOffset(ps)].items, ManyEntryFn(chain, lib), k);
  }

  /** With every entry valid, a supplied negative fee rejects the request. */
  lemma SendManyRejectsNegativeFee(chain: Chain, lib: Lib, ps: seq<JValue>)
    requires ManyFrom(lib, ps).Success?
    requires ManyOffset(ps) < |ps| && ps[ManyOffset(ps)].JArray? && |ps[ManyOffset(ps)].items| > 0
    requires forall j :: 0 <= j < |ps[ManyOffset(ps)].items| ==> ManyEntry(chain, lib, ps[ManyOffset(ps)].items[j]).Success?
    requires OptionalFee(lib, ps, ManyOffset(ps) + 1).Success? && OptionalFee(lib, ps, ManyOffset(ps) + 1).value < 0
    ensures SendManyRequest(chain, lib, ps) == Failure(InvalidParams)
  {
    assert Collect(ps[ManyOffset(ps)].items, ManyEntryFn(chain, lib)).Success?;
  }

  /**
    The loop of `sendmany` and `sendissuetransaction`: fill an array with one output per
    entry, and leave at the first entry that throws or is rejected.
   */
  method FillOutputs<T(0)>(to: seq<JValue>, f: JValue -> Result<T, Error>) returns (r: Result<seq<T>, Error>)
    ensures r == Collect(to, f)
  {
    var outputs := new T[|to|];
    for i := 0 to |to|
      invariant Collect(to[..i], f) == Success(outputs[..i])
    {
      var o := f(to[i]);
      if o.Failure? {
        forall j | 0 <= j < i
          ensures f(to[j]).Success?
        {
          assert to[..i][j] == to[j];
        }
        CollectFirstFailure(to, f, i);
        return Failure(o.error);
      }
      assert to[..i + 1] == to[..i] + [to[i]];
      ghost var done := outputs[..i];
      CollectSnoc(to[..i], to[i], f, done, o.value);
      outputs[i] := o.value;
      assert outputs[..i + 1] == done + [o.value];
    }
    assert to[..|to|] == to;
    assert outputs[..|to|] == outputs[..];
    return Success(outputs[..]);
  }

  /** The `sendmany` handler's steps, with its loop in `FillOutputs`. */
  method BuildSendMany(chain: Chain, lib: Lib, ps: seq<JValue>) returns (r: Result<MakeRequest, Error>)
    ensures r == SendManyRequest(chain, lib, ps)
  {
    if |ps| == 0 {
      return Failure(Fault);
    }
    var toStart := 0;
    var from: Option<UInt160> := None;
    if ps[0].JString? {
      var h :- Parsed(lib.scriptHash(ps[0].text));
      from := Some(h);
      toStart := 1;
    }
    var to :- ArrayParam(ps, toStart);
    if |to| == 0 {
      return Failure(InvalidParams);
    }
    var outputs :- FillOutputs(to, ManyEntryFn(chain, lib));
    var fee :- OptionalFee(lib, ps, toStart + 1);
    if fee < 0 {
      return Failure(InvalidParams);
    }
    var change :- OptionalAddress(lib, ps, toStart + 2);
    r := Success(MakeTransfer(outputs, from, change, fee));
  }

  // ---------------------------------------------------------------------------
  // sendissuetransaction

  /**
    One entry `{value, address}` of an issue: a Fixed8 amount of `asset` to the parsed
    address, accepted whatever its sign. The asset's descriptor is looked up for each
    entry, so an unknown asset throws.
   */
  function IssueEntry(chain: Chain, lib: Lib, asset: UInt256, item: JValue): (r: Result<TxOutput, Error>)
    ensures r.Success? ==>
            && r.value.assetId == asset
            && chain.decimals(Global(asset)).Some?
            && FieldText(item, "value").Success?
            && lib.fixed8(FieldText(item, "value").value) == Some(r.value.value)
            && FieldText(item, "address").Success?
            && lib.scriptHash(FieldText(item, "address").value) == Some(r.value.scriptHash)
    ensures && chain.decimals(Global(asset)).Some?
            && FieldText(item, "value").Success? && lib.fixed8(FieldText(item, "value").value).Some?
            && FieldText(item, "address").Success? && lib.scriptHash(FieldText(item, "address").value).Some?
            ==> r.Success?
    ensures r.Failure? ==> r.error == Fault
  {
    var decimals :- Parsed(chain.decimals(Global(asset)));
    var valueText :- FieldText(item, "value");
    var value :- Parsed(lib.fixed8(valueText));
    var addressText :- FieldText(item, "address");
    var address :- Parsed(lib.scriptHash(addressText));
    Success(TxOutput(asset, value, address))
  }

  function IssueEntryFn(chain: Chain, lib: Lib, asset: UInt256): JValue -> Result<TxOutput, Error> {
    item => IssueEntry(chain, lib, asset, item)
  }

  /** The issue transaction handed to `MakeTransaction`: version 1, the given outputs and nothing else. */
  function IssueTx(outputs: seq<TxOutput>): (r: Tx)
    ensures r.body.IssueBody? && r.version == 1 && r.outputs == outputs
    ensures r.inputs == [] && r.attributes == [] && r.witnesses == []
  {
    Tx(IssueBody, 1, [], [], outputs, [])
  }

  /** The 256-bit asset id at index 0. */
  function IssueAsset(lib: Lib, ps: seq<JValue>): (r: Result<UInt256, Error>)
    ensures r.Success? <==> Text(ps, 0).Success? && lib.uint256(Text(ps, 0).value).Some?
    ensures r.Success? ==> lib.uint256(Text(ps, 0).value) == Some(r.value)
    ensures r.Failure? ==> r.error == Fault
  {
    var t :- Text(ps, 0);
    Parsed(lib.uint256(t))
  }

  /** `sendissuetransaction`: one output per entry, all of the named asset, and a fee of exactly one unit. */
  function IssueRequest(chain: Chain, lib: Lib, ps: seq<JValue>): (r: Result<MakeRequest, Error>)
    ensures r.Success? ==>
            && IssueAsset(lib, ps).Success?
            && r.value.MakeFrom?
            && r.value.fee == One
            && r.value.tx.body.IssueBody? && r.value.tx.version == 1
            && r.value.tx.inputs == [] && r.value.tx.attributes == [] && r.value.tx.witnesses == []
            && 1 < |ps| && ps[1].JArray?
            && 0 < |r.value.tx.outputs| == |ps[1].items|
            && (forall k :: 0 <= k < |ps[1].items| ==>
                  IssueEntry(chain, lib, IssueAsset(lib, ps).value, ps[1].items[k]) == Success(r.value.tx.outputs[k])
                  && r.value.tx.outputs[k].assetId == IssueAsset(lib, ps).value)
    ensures r == Failure(InvalidParams) <==> IssueAsset(lib, ps).Success? && ArrayParam(ps, 1) == Success([])
    ensures && IssueAsset(lib, ps).Success?
            && 1 < |ps| && ps[1].JArray? && |ps[1].items| > 0
            && (forall k :: 0 <= k < |ps[1].items| ==> IssueEntry(chain, lib, IssueAsset(lib, ps).value, ps[1].items[k]).Success?)
            ==> r.Success?
    ensures r.Failure? ==> r.error == Fault || r.error == InvalidParams
  {
    var asset :- IssueAsset(lib, ps);
    var to :- ArrayParam(ps, 1);
    if |to| == 0 then Failure(InvalidParams)
    else
      var outputs :- Collect(to, IssueEntryFn(chain, lib, asset));
      Success(MakeFrom(IssueTx(outputs), One))
  }

  /** The `sendissuetransaction` handler's steps, with its loop in `FillOutputs`. */
  method BuildIssue(chain: Chain, lib: Lib, ps: seq<JValue>) returns (r: Result<MakeRequest, Error>)
    ensures r == IssueRequest(chain, lib, ps)
  {
    var parsed := IssueAsset(lib, ps);
    if parsed.Failure? {
      return Failure(parsed.error);
    }
    var asset := parsed.value;
    if !(1 < |ps| && ps[1].JArray?) {
      return Failure(Fault);
    }
    var to := ps[1].items;
    if |to| == 0 {
      return Failure(InvalidParams);
    }
    var outputs :- FillOutputs(to, IssueEntryFn(chain, lib, asset));
    assert ArrayParam(ps, 1) == Success(to);
    r := Success(MakeFrom(IssueTx(outputs), One));
  }

  // ---------------------------------------------------------------------------
  // claimgas

  /** The cap on the number of references one claim transaction carries. */
  const MaxClaimsAmount: nat := 50

  /** The first `n` elements, or all of them when there are fewer. */
  function Take<T>(s: seq<T>, n: nat): (r: seq<T>)
    ensures |r| == (if |s| < n then |s| else n)
    ensures r == s[..|r|]
  {
    if n < |s| then s[..n] else s
  }

  /**
    `claimgas`: the first references (at most 50) of the unclaimed coins, their bonus as
    a single utility-token output to `to`, or to the change address when `to` is absent.
   */
  function ClaimTransaction(w: Wallet, chain: Chain, lib: Lib, ps: seq<JValue>): (r: Result<Tx, Error>)
    ensures r.Failure? ==> r.error == Fault || r.error == NoGasToClaim
    ensures r == Failure(NoGasToClaim) <==> OptionalAddress(lib, ps, 0).Success? && |w.unclaimedCoins| == 0
    ensures OptionalAddress(lib, ps, 0).Success? && |w.unclaimedCoins| > 0 ==> r.Success?
    ensures r.Success? ==>
            var refs := Refs(w.unclaimedCoins);
            && r.value.body.ClaimBody?
            && |r.value.body.claims| == (if |refs| < MaxClaimsAmount then |refs| else MaxClaimsAmount)
            && r.value.body.claims == refs[..|r.value.body.claims|]
            && r.value.inputs == [] && r.value.attributes == [] && r.value.witnesses == []
            && OptionalAddress(lib, ps, 0).Success?
            && r.value.outputs == [TxOutput(chain.utilityToken, chain.bonus(r.value.body.claims),
                                            OptionalAddress(lib, ps, 0).value.GetOr(w.changeAddress))]
  {
    var to :- OptionalAddress(lib, ps, 0);
    var refs := Refs(w.unclaimedCoins);
    if |refs| == 0 then Failure(NoGasToClaim)
    else
      var claims := Take(refs, MaxClaimsAmount);
      Success(Tx(ClaimBody(claims), 0, [], [], [TxOutput(chain.utilityToken, chain.bonus(claims), to.GetOr(w.changeAddress))], []))
  }
}
