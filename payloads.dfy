/**
  The values the wallet RPC handlers work on: hashes, amounts, coins, transactions,
  and the collaborators (wallet, ledger snapshot, library parsers) the handlers call.
  Every collaborator whose code is not part of this model is a field of function type,
  so the handlers can be stated for all of its possible behaviours.
 */
module Payloads {
  import opened Wrappers

  /** A script hash (an address) and a 256-bit hash (a global asset id, a transaction id). */
  datatype UInt160 = UInt160(bytes: seq<bv8>)
  datatype UInt256 = UInt256(bytes: seq<bv8>)

  /** What `UIntBase.Parse` yields: a 20-byte token id or a 32-byte global asset id. */
  datatype AssetKey = Token(token: UInt160) | Global(global: UInt256)

  /** An arbitrary-precision decimal: `value` scaled by 10^decimals. */
  datatype BigDecimal = BigDecimal(value: int, decimals: nat)

  datatype CoinReference = CoinReference(prevHash: UInt256, prevIndex: nat)

  /** A ledger output; `value` is a Fixed8 amount in base units. */
  datatype TxOutput = TxOutput(assetId: UInt256, value: int, scriptHash: UInt160)

  /** The two `CoinState` flags the handlers test. */
  datatype CoinState = CoinState(confirmed: bool, spent: bool)

  datatype Coin = Coin(reference: CoinReference, output: TxOutput, state: CoinState)

  /** A requested transfer, before coin selection: the amount is in the asset's own decimals. */
  datatype TransferOutput = TransferOutput(assetId: AssetKey, value: BigDecimal, scriptHash: UInt160)

  datatype TxAttribute = TxAttribute(usage: nat, data: seq<bv8>)

  datatype Witness = Witness(invocationScript: seq<bv8>, verificationScript: seq<bv8>)

  /** The kind-specific part of a transaction. */
  datatype TxBody =
    | ContractBody
    | ClaimBody(claims: seq<CoinReference>)
    | IssueBody
    | InvocationBody(script: seq<bv8>, gas: int)

  datatype Tx = Tx(
    body: TxBody,
    version: nat,
    attributes: seq<TxAttribute>,
    inputs: seq<CoinReference>,
    outputs: seq<TxOutput>,
    witnesses: seq<Witness>)

  /** The two ways the handlers call `Wallet.MakeTransaction`. */
  datatype MakeRequest =
    | MakeTransfer(outputs: seq<TransferOutput>, from: Option<UInt160>, changeAddress: Option<UInt160>, fee: int)
    | MakeFrom(tx: Tx, fee: int)

  /** What `Wallet.Sign` leaves in a signing context: whether it is complete, and its witnesses. */
  datatype Signing = Signing(completed: bool, witnesses: seq<Witness>)

  /** The loaded wallet, as seen by the handlers. */
  datatype Wallet = Wallet(
    coins: seq<Coin>,                    // GetCoins()
    unspentCoins: seq<Coin>,             // FindUnspentCoins()
    unclaimedCoins: seq<Coin>,           // GetUnclaimedCoins()
    changeAddress: UInt160,              // GetChangeAddress()
    available: UInt160 -> BigDecimal,    // GetAvailable(token)
    height: nat,                         // WalletHeight
    make: MakeRequest -> Option<Tx>,     // MakeTransaction; None is C#'s null
    sign: Tx -> Signing)                 // Sign(new ContractParametersContext(tx))

  /** The ledger snapshot and the chain's native assets. */
  datatype Chain = Chain(
    governingToken: UInt256,
    utilityToken: UInt256,
    height: nat,
    decimals: AssetKey -> Option<nat>,                   // new AssetDescriptor(id).Decimals; None when it throws
    bonus: seq<CoinReference> -> int,                    // CalculateBonus(refs)
    bonusUntil: (seq<CoinReference>, nat) -> Option<int>) // CalculateBonus(refs, height); None when it throws

  /** Library parsing and serialisation; None stands for the exception a malformed string raises. */
  datatype Lib = Lib(
    scriptHash: string -> Option<UInt160>,               // ToScriptHash
    uintBase: string -> Option<AssetKey>,                // UIntBase.Parse
    uint256: string -> Option<UInt256>,                  // UInt256.Parse
    bigDecimal: (string, nat) -> Option<BigDecimal>,     // BigDecimal.Parse(s, decimals)
    fixed8: string -> Option<int>,                       // Fixed8.Parse, in base units
    hexBytes: string -> Option<seq<bv8>>,                // HexToBytes
    size: Tx -> nat)                                     // Transaction.Size

  /** Everything a handler reads: the wallet (None when no wallet is open), the time lock, the chain, the library. */
  datatype Context = Context(wallet: Option<Wallet>, locked: bool, chain: Chain, lib: Lib)

  /** An `RpcException` with its code and message, or any other exception (`Fault`). */
  datatype Error = RpcError(code: int, message: string) | Fault

  const AccessDenied: Error := RpcError(-400, "Access denied")
  const InvalidParams: Error := RpcError(-32602, "Invalid params")
  const InsufficientFunds: Error := RpcError(-300, "Insufficient funds")
  const NoGasToClaim: Error := RpcError(-300, "No gas to claim")
  const TransactionTooLarge: Error := RpcError(-301, "The size of the free transaction must be less than 102400 bytes")

  /** `Transaction.MaxTransactionSize`, in bytes. */
  const MaxTransactionSize: nat := 102400

  /** A library result, with the exception it would throw as `Fault`. */
  function Parsed<T>(o: Option<T>): Result<T, Error> {
    if o.Some? then Success(o.value) else Failure(Fault)
  }
}
