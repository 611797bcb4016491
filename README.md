# Wallet RPC handlers of the bhp plugins, in Dafny

This project models the request-handling layer of `RpcWallet`, the plugin behind the node's wallet RPC
methods. Each request handler passes the wallet gate (`WalletVerify`: a wallet is open and its time lock is not
locked). It then reads its positional JSON parameters, validates amounts and fees, and builds either a
`MakeTransaction` request or a transaction. The sending handlers all end in one finishing step,
`SignAndShowResult`. That step signs the transaction; an incomplete signature context goes back to the
caller as is. A complete one is size-checked, applied to the wallet, relayed, and shown as JSON or hex.
The read-only handlers are queries over the wallet's coins, balances and height: `getbalance`, `getutxos`,
`getunclaimedgas` and `getwalletheight`. After `invoke`, `invokefunction` and `invokescript`, the
post-processing step (`ProcessInvoke`) turns the measured gas into an invocation transaction.

Modules, following the structure of the handlers:

- `Wrappers`: `Option` and `Result`.
- `Payloads`: hashes, amounts, coins, transactions, the RPC error codes, and the collaborators. The
  collaborators are the wallet (`Wallet`), the ledger snapshot (`Chain`) and the library parsers
  (`Lib`). Each is a datatype of functions, so every handler is proved for all of their possible
  behaviours. A library call that would throw yields `None`, which becomes the error `Fault`.
- `Json`: the request's JSON values and positional access to `_params`.
- `Fixed8`: integers scaled by 10^8, `Ceiling`, and the gas rule of `ProcessInvoke`.
- `CoinQueries`: LINQ `Where`, `Sum` and `Select` over coin sequences; the balance and UTXO queries.
- `Requests`: validation and construction for `sendfrom`, `sendtoaddress`, `sendmany`,
  `sendissuetransaction` and `claimgas`. The loops of `sendmany` and `sendissuetransaction` are methods
  (`BuildSendMany`, `BuildIssue`); their shared loop `FillOutputs` fills an `array` of outputs and is
  proved equal to a first-failure-wins specification, `Collect`.
- `Finishing`: the four outcomes of `SignAndShowResult`, as a function `Finish`. It returns the reply
  and the effects, which are the wallet applying a transaction and the node relaying one.
- `Plugins`: the handlers. The read-only ones are functions of a `Context`. `ProcessInvoke` is a method
  that recomputes the gas step by step. The class `RpcWallet` keeps a ghost `log` of applied and relayed
  transactions. Each handler method is proved to return the validation error, or `Finish`'s reply once the
  request is accepted, and to append exactly the matching effects. A denied or rejected request leaves the
  log unchanged.

Facts about the code that a reader might not expect:

- `sendissuetransaction` does not check that its amounts are positive; only the other builders do.
- `ProcessInvoke` does not pass the wallet gate: it only checks that a wallet is open, so a time-locked
  wallet still builds and signs invocation transactions.
- The size ceiling is checked once, after the witnesses are attached; there is no check before signing.
- No size-derived fee rebuild, fee ceiling, cold consolidation or annotated transfer exists in this file.
- The size guard is `Size > 102400`, so a transaction of exactly 102400 bytes is accepted, even though
  the message says the size "must be less than 102400 bytes".

## Model

| member | source | states |
|---|---|---|
| Plugins.WalletVerify | RpcWallet/RpcWallet.cs:426-430 | access is granted exactly when a wallet is open and the time lock is not locked; otherwise the error is -400 "Access denied" |
| Plugins.GetWalletHeight | RpcWallet/RpcWallet.cs:205-209 | denied without access; otherwise the reply plus one is the wallet height when that is positive, and zero for height zero |
| Plugins.GetBalance | RpcWallet/RpcWallet.cs:155-171 | denied without access; an unparsable asset throws; an allowed request whose asset parses always succeeds. A token id gives the wallet's available amount; a global asset gives the sum over unspent coins of that asset and the sum over the confirmed ones among them |
| Plugins.BalanceKey | RpcWallet/RpcWallet.cs:159 | the asset at index 0 succeeds exactly when its text parses as a token id or a global asset id, and is that id; anything else throws |
| Plugins.GetBalanceConfirmedAtMost | RpcWallet/RpcWallet.cs:164-167 | for a global asset with no negative coin values, the `confirmed` figure never exceeds `balance` |
| Plugins.UtxoAsset | RpcWallet/RpcWallet.cs:366-385 | "bhp" is the governing token, "gas" the utility token, any other string is parsed as a 256-bit id, and an absent parameter is the governing token |
| Plugins.GetUtxos | RpcWallet/RpcWallet.cs:359-398 | denied without access; on success, exactly the references `Utxos` gives for the unspent coins, the resolved asset and the given address; it succeeds whenever the address and the asset parse; with access granted, a malformed address or asset throws |
| Plugins.GetUnclaimedGas | RpcWallet/RpcWallet.cs:182-203 | denied without access; `available` is the bonus of all unclaimed coin references; `unavailable` is the bonus of the governing-token unspent coins up to height + 1, and zero when the ledger cannot compute it |
| Plugins.GoverningRefs | RpcWallet/RpcWallet.cs:191 | every unspent governing-token coin's reference is listed, and every listed reference belongs to such a coin |
| Plugins.ClaimMatchesAvailable | RpcWallet/RpcWallet.cs:120-136 | with at most 50 unclaimed coins, the claim output's value equals the `available` amount `getunclaimedgas` reports |
| Plugins.ProcessInvoke | RpcWallet/RpcWallet.cs:88-113 | with no wallet, nothing is added; a malformed script or gas throws; otherwise the `tx` field is the transaction made from an invocation with gas `InvokeGas(consumed)` and fee zero, with witnesses attached when fully signed, and null when none was made or signing is incomplete |
| Plugins.InvokeInputs | RpcWallet/RpcWallet.cs:95-96 | the result yields a script and a consumed gas exactly when its `script` text decodes from hex and its `gas_consumed` text parses as Fixed8, and then they are those values; anything else throws |
| Plugins.InvocationTx | RpcWallet/RpcWallet.cs:92-97 | the invocation has version 1, the given script and gas, and no inputs, outputs, attributes or witnesses |
| Plugins.Made | RpcWallet/RpcWallet.cs:255-263 | a rejected request keeps its error and nothing is made; an accepted one is what `MakeTransaction` returns for it |
| Plugins.RpcWallet.SignAndShowResult | RpcWallet/RpcWallet.cs:432-456 | returns `Finish`'s reply and appends exactly `Finish`'s effects to the log |
| Plugins.RpcWallet.ClaimGas | RpcWallet/RpcWallet.cs:115-143 | denied without access, log unchanged; otherwise a failing claim build is returned with nothing applied, and a built claim goes through the finishing step, reply and log included |
| Plugins.RpcWallet.SendFrom | RpcWallet/RpcWallet.cs:241-265 | denied without access, log unchanged; otherwise a rejected request never reaches `MakeTransaction`; an accepted one is made and finished, reply and log as `Finish` says |
| Plugins.RpcWallet.SendToAddress | RpcWallet/RpcWallet.cs:302-325 | as for `sendfrom`, with no sender, and a hex reply when called as `gettransactiondata` |
| Plugins.RpcWallet.SendMany | RpcWallet/RpcWallet.cs:267-300 | denied without access, log unchanged; otherwise the request the loop builds is `SendManyRequest`'s, and it is made and finished only when accepted |
| Plugins.RpcWallet.SendIssueTransaction | RpcWallet/RpcWallet.cs:400-424 | denied without access, log unchanged; otherwise the request the loop builds is `IssueRequest`'s, and it is made and finished only when accepted |
| Finishing.Finish | RpcWallet/RpcWallet.cs:434-455 | "Insufficient funds" exactly when no transaction is given; the signing context is returned as is exactly when signing is incomplete; -301 exactly when the signed transaction exceeds 102400 bytes. A complete signature with a signed size of at most 102400 bytes is finalized with the signed transaction and the requested format. Effects occur exactly then, and are one apply followed by one relay of that transaction |
| Finishing.Signed | RpcWallet/RpcWallet.cs:440 | attaching the witnesses changes the witnesses and nothing else |
| Finishing.FinishNullIgnoresSigner | RpcWallet/RpcWallet.cs:434-435 | a null transaction is rejected whatever the signer and size function would do, because it is never signed |
| Finishing.FinishRelaysBuiltTx | RpcWallet/RpcWallet.cs:440-446 | the relayed transaction differs from the built one only in its witnesses |
| Fixed8.Ceiling | RpcWallet/RpcWallet.cs:100 | the result is a whole number of units, at least the input, and less than one unit above it |
| Fixed8.CeilingIsLeast | RpcWallet/RpcWallet.cs:100 | no whole multiple of a unit at or above the input lies below the ceiling |
| Fixed8.InvokeGas | RpcWallet/RpcWallet.cs:98-100 | the charged gas is never negative, is a whole number of units, covers the consumed gas beyond the 10-unit allowance, and is less than one unit above that excess |
| Fixed8.InvokeGasFree | RpcWallet/RpcWallet.cs:98-99 | consumption within the 10-unit allowance is charged nothing |
| Fixed8.InvokeGasMonotonic | RpcWallet/RpcWallet.cs:98-100 | consuming more never lowers the charge |
| Fixed8.InvokeGasIsLeast | RpcWallet/RpcWallet.cs:98-100 | the charge is the least non-negative whole amount covering the excess |
| CoinQueries.Where | RpcWallet/RpcWallet.cs:165 | the result holds only input coins satisfying the predicate, and every input coin that satisfies it |
| CoinQueries.Sum | RpcWallet/RpcWallet.cs:166 | the empty sum is zero, and coins with no negative value have a non-negative sum |
| CoinQueries.WhereAppend | RpcWallet/RpcWallet.cs:386 | filtering commutes with concatenation, so filtering keeps the original order |
| CoinQueries.WhereWhere | RpcWallet/RpcWallet.cs:165-167 | filtering twice is filtering by the conjunction of the two predicates |
| CoinQueries.SumAppend | RpcWallet/RpcWallet.cs:166 | the sum of a concatenation is the sum of its parts |
| CoinQueries.SumPartition | RpcWallet/RpcWallet.cs:166-167 | the coins satisfying a predicate and the rest together sum to the whole |
| CoinQueries.WhereNonNegative | RpcWallet/RpcWallet.cs:165 | filtering keeps values non-negative |
| CoinQueries.SumWhereAtMost | RpcWallet/RpcWallet.cs:167 | with no negative values, a filtered sum never exceeds the whole sum |
| CoinQueries.Refs | RpcWallet/RpcWallet.cs:392-395 | one reference per coin, position by position |
| CoinQueries.RefsAppend | RpcWallet/RpcWallet.cs:392-395 | taking references commutes with concatenation |
| CoinQueries.ConfirmedAtMostBalance | RpcWallet/RpcWallet.cs:165-167 | with no negative values, the confirmed balance never exceeds the balance |
| CoinQueries.Balance | RpcWallet/RpcWallet.cs:165-166 | the balance of a global asset is its confirmed balance plus the sum over its unspent coins that are not confirmed |
| CoinQueries.ConfirmedBalance | RpcWallet/RpcWallet.cs:165-167 | the confirmed balance is the sum over the coins that are unspent, of the asset, and confirmed |
| CoinQueries.RefsWhere | RpcWallet/RpcWallet.cs:386-395 | the references of the coins satisfying a predicate are those of every such coin, and of no other |
| CoinQueries.Utxos | RpcWallet/RpcWallet.cs:386-395 | every coin of the asset held by the address is listed, and every listed reference belongs to such a coin |
| CoinQueries.UtxosAppend | RpcWallet/RpcWallet.cs:386-395 | the listing of a concatenation is the concatenation of the listings: the original order is kept |
| CoinQueries.UtxosSingle | RpcWallet/RpcWallet.cs:386 | one coin is listed exactly when it is of the asset and held by the address |
| Requests.Collect | RpcWallet/RpcWallet.cs:281-293 | on success, one output per entry, each the entry's own result; on failure, the error is some entry's error; when every entry succeeds, the list succeeds |
| Requests.FillOutputs | RpcWallet/RpcWallet.cs:280-293 | the loop that fills an array with one output per entry and leaves at the first bad entry computes exactly `Collect` |
| Requests.OptionalFee | RpcWallet/RpcWallet.cs:294 | an absent fee is zero; a present one succeeds exactly when it is a string Fixed8 parses, and is the parsed amount; a failure is a thrown exception |
| Requests.OptionalAddress | RpcWallet/RpcWallet.cs:297 | an absent address is null; a present one succeeds exactly when it is a string that converts to a script hash, and is that hash; a failure is a thrown exception |
| Requests.Address | RpcWallet/RpcWallet.cs:246-247 | the address at an index succeeds exactly when it is a string that converts to a script hash, and is that hash; anything else throws |
| Requests.CollectSnoc | RpcWallet/RpcWallet.cs:281-290 | appending an entry that succeeds appends its output |
| Requests.CollectFirstFailure | RpcWallet/RpcWallet.cs:291-292 | the first failing entry's error is the list's error |
| Requests.CollectFailureIsFirst | RpcWallet/RpcWallet.cs:281-293 | a failing list has a first failing entry, and its error is the list's error |
| Requests.ParseTransferHead | RpcWallet/RpcWallet.cs:244-248 | the asset is what the text at index 0 parses to, and it has a descriptor; for `sendfrom` the sender is the address at index 1; the recipient and the amount, in the asset's decimals, are the parses of the next two indices. The head is built exactly when all of these parse, and every failure is a thrown exception |
| Requests.TransferRequest | RpcWallet/RpcWallet.cs:244-263 | every failure is a thrown exception or -32602. -32602 occurs exactly for an amount of sign at most zero or a supplied negative fee. A request whose arguments all parse, with a positive amount and a fee of at least zero, is accepted. It then has one output with the parsed asset, amount and recipient, the parsed sender, a fee that defaults to zero, and a change address that defaults to null |
| Requests.SendFromShift | RpcWallet/RpcWallet.cs:244-247 | `sendfrom` with a sender at index 1 builds the `sendtoaddress` request of the remaining arguments, with that sender set |
| Requests.ManyEntry | RpcWallet/RpcWallet.cs:283-292 | an entry that does not parse throws; a parsed amount of sign at most zero gives -32602; otherwise the entry yields its parsed output |
| Requests.ParseManyEntry | RpcWallet/RpcWallet.cs:283-290 | an entry yields an output exactly when its asset id, the asset's descriptor, the amount in that asset's decimals and the address all parse; the output carries those parsed values; a failure is a thrown exception |
| Requests.ManyFrom | RpcWallet/RpcWallet.cs:271-276 | a leading string is the sender, and a leading non-string means no sender; it throws exactly when there is no parameter or the leading string is not an address |
| Requests.SendManyRequest | RpcWallet/RpcWallet.cs:270-298 | an accepted request has one positive output per entry in order, a sender exactly when the first argument is a string, and then the address it converts to, a fee of at least zero that defaults to zero, and a change address from the shifted index. An empty list gives -32602. A request whose sender, entries, fee and change address are all valid is accepted. Every failure is a thrown exception or -32602, and -32602 occurs only for an empty list, an entry whose amount parses to a value of sign at most zero, or a parsed negative fee |
| Requests.SendManyShift | RpcWallet/RpcWallet.cs:272-276 | a leading sender string only sets `from`; every other argument is read one index further on |
| Requests.SendManyRejectsNonPositive | RpcWallet/RpcWallet.cs:291-292 | an entry whose amount parses to a value of sign at most zero gives -32602, provided the entries before it parsed with positive amounts |
| Requests.SendManyRejectsNegativeFee | RpcWallet/RpcWallet.cs:294-296 | with every entry valid, a supplied negative fee gives -32602 |
| Requests.BuildSendMany | RpcWallet/RpcWallet.cs:267-298 | the handler's steps, with the array-filling loop and its early exits, compute exactly `SendManyRequest` |
| Requests.IssueEntry | RpcWallet/RpcWallet.cs:410-416 | an entry whose asset descriptor, Fixed8 value and address all parse yields an output of the named asset with that value and address, whatever the value's sign; every failure is a thrown exception |
| Requests.IssueAsset | RpcWallet/RpcWallet.cs:403 | the asset id at index 0 succeeds exactly when it is a string that parses as a 256-bit id, and is that id; anything else throws |
| Requests.IssueTx | RpcWallet/RpcWallet.cs:418-422 | the issue transaction has version 1, exactly the given outputs, and no inputs, attributes or witnesses |
| Requests.IssueRequest | RpcWallet/RpcWallet.cs:403-422 | an accepted issue has one output per entry, in order, all of the named asset, version 1, no inputs, attributes or witnesses, and a fee of exactly one unit. -32602 occurs exactly when the asset parses and the list is empty. An issue whose asset parses and whose entries all parse is accepted |
| Requests.BuildIssue | RpcWallet/RpcWallet.cs:400-422 | the handler's steps, with the array-filling loop, compute exactly `IssueRequest` |
| Requests.ClaimTransaction | RpcWallet/RpcWallet.cs:118-140 | -300 "No gas to claim" exactly when the optional address parses and no coin is unclaimed. When the address parses and some coin is unclaimed, the claim is built. Its claims are the first min(n, 50) unclaimed references in order, with no inputs or attributes and a single utility-token output. That output carries the bonus of exactly those claims and goes to `to`, or else to the change address |
| Requests.Take | RpcWallet/RpcWallet.cs:128 | the first min(length, n) elements, as a prefix |
| Plugins.Completed | RpcWallet/RpcWallet.cs:102-110 | a transaction is kept exactly when one was made and its signing is complete, and it then carries the signing's witnesses |
| Json.Param | RpcWallet/RpcWallet.cs:277 | a positional parameter exists exactly when its index is in range; out of range throws |
| Json.AsString | RpcWallet/RpcWallet.cs:283 | a JSON value yields text exactly when it is a string, and then its text; anything else throws |
| Json.Text | RpcWallet/RpcWallet.cs:244 | the parameter at an index yields text exactly when it is present and a string; anything else throws |
| Json.FieldText | RpcWallet/RpcWallet.cs:288-289 | an entry's member yields text exactly when the entry is an object holding that key with a string value; anything else throws |
| Json.Field | RpcWallet/RpcWallet.cs:283 | a present key of an object gives its value; anything else reads as null. For a null entry the library throws at the indexer instead, and the text read that follows in every caller gives the same exception |
| Json.ArrayParam | RpcWallet/RpcWallet.cs:404 | the parameter is read as an array exactly when it is present and is one; anything else throws, at the cast or, for null, when its count is read |

## Left out

- Key management (`dumpprivkey`, `importprivkey`, `getnewaddress`, `listaddress`, wallet `Save`): persistence and key storage, outside this layer.
- `showgas` and the commented-out `ClaimGas()` variant: they go through `RpcCoins`, which is not part of this model.
- The `OnProcess` and `PostProcess` dispatch: plumbing from method names to handlers. The handlers are modelled directly, and `gettransactiondata` appears as `SendToAddress` with `asHex`.
- `ApplicationLogs/Settings.cs` (configuration loading) and `ConsoleLogger/ConsoleLogger.cs` (console output with the wall-clock time) are not part of this model.
- `Wallet.MakeTransaction`: coin selection, change and fees are an arbitrary function `make` that may return null. `Wallet.Sign` is an arbitrary function giving a completion flag and witnesses. `CalculateBonus` is an arbitrary ledger function.
- `Wallet.ApplyTransaction` and the relay through the local node's actor are recorded only as `Applied` and `Relayed` events in a ghost log. How the wallet's coin state changes when a transaction is applied is not modelled.
- JSON output, hex serialisation, `Transaction.Size`, `UIntBase.Parse`, `UInt256.Parse`, `BigDecimal.Parse`, `Fixed8.Parse`, `HexToBytes` and `ToScriptHash` are library code. They appear as parameters whose failure is a thrown exception.
- Json.AsString: JSON numbers and booleans are not represented in `JValue`, so parameters given as numbers or booleans are outside the model; arrays and objects read as text are treated as malformed, though the library renders some of them as text.
- Fixed8.InvokeGas: Fixed8's 64-bit range and its checked overflow are not modelled; amounts are unbounded integers.
- Requests.ClaimTransaction: `CalculateBonus` over the claims is total in the model, so an exception it might throw while building the claim is not represented.
- Plugins.GetUnclaimedGas: `CalculateBonus` for the available amount is total in the model, so an exception it might throw is not represented; the unavailable amount's fallback to zero is modelled as an absent value read as zero.
- Payloads.Chain: `AssetDescriptor` is represented only by the decimals it yields, or by its failure for an unknown asset.
