/**
  The step every sending handler ends with (`SignAndShowResult`): sign, and either hand
  back the incomplete signing context, or check the size, apply to the wallet and relay.
 */
module Finishing {
  import opened Wrappers
  import opened Payloads

  /** What the step does to the outside world: the wallet applies a transaction, the node relays one. */
  datatype Event = Applied(tx: Tx) | Relayed(tx: Tx)

  /** The two successful replies: a finished transaction (as JSON or as hex) or a signing context to complete elsewhere. */
  datatype Shown = Finalized(tx: Tx, asHex: bool) | Incomplete(tx: Tx, signing: Signing)

  datatype Finished = Finished(result: Result<Shown, Error>, effects: seq<Event>)

  /** The transaction with the signing's witnesses attached and nothing else changed. */
  function Signed(tx: Tx, s: Signing): (r: Tx)
    ensures r.witnesses == s.witnesses
    ensures r.body == tx.body && r.version == tx.version && r.attributes == tx.attributes
    ensures r.inputs == tx.inputs && r.outputs == tx.outputs
  {
    tx.(witnesses := s.witnesses)
  }

  /**
    The four outcomes: no transaction; a signing context that is incomplete, returned
    as is; a signed transaction too large to send; or a signed transaction applied and
    then relayed, once each.
   */
  function Finish(sign: Tx -> Signing, size: Tx -> nat, tx: Option<Tx>, asHex: bool): (f: Finished)
    ensures f.result == Failure(InsufficientFunds) <==> tx.None?
    ensures (f.result.Success? && f.result.value.Incomplete?) <==> (tx.Some? && !sign(tx.value).completed)
    ensures f.result.Success? && f.result.value.Incomplete? ==> f.result.value == Incomplete(tx.value, sign(tx.value))
    ensures f.result == Failure(TransactionTooLarge) <==>
            tx.Some? && sign(tx.value).completed && size(Signed(tx.value, sign(tx.value))) > MaxTransactionSize
    ensures f.effects != [] <==> f.result.Success? && f.result.value.Finalized?
    ensures f.result.Success? && f.result.value.Finalized? ==>
            && tx.Some? && sign(tx.value).completed
            && f.result.value.tx == Signed(tx.value, sign(tx.value))
            && size(f.result.value.tx) <= MaxTransactionSize
            && f.result.value.asHex == asHex
            && f.effects == [Applied(f.result.value.tx), Relayed(f.result.value.tx)]
    ensures tx.Some? && sign(tx.value).completed && size(Signed(tx.value, sign(tx.value))) <= MaxTransactionSize
            ==> f.result == Success(Finalized(Signed(tx.value, sign(tx.value)), asHex))
  {
    if tx.None? then Finished(Failure(InsufficientFunds), [])
    else
      var s := sign(tx.value);
      if !s.completed then Finished(Success(Incomplete(tx.value, s)), [])
      else
        var signed := Signed(tx.value, s);
        if size(signed) > MaxTransactionSize then Finished(Failure(TransactionTooLarge), [])
        else Finished(Success(Finalized(signed, asHex)), [Applied(signed), Relayed(signed)])
  }

  /** A missing transaction is rejected whatever the signer would have done: it is never signed. */
  lemma FinishNullIgnoresSigner(sign1: Tx -> Signing, sign2: Tx -> Signing, size1: Tx -> nat, size2: Tx -> nat, asHex: bool)
    ensures Finish(sign1, size1, None, asHex) == Finish(sign2, size2, None, asHex)
  {
  }

  /** Signing only adds witnesses: what is relayed is the built transaction, otherwise unchanged. */
  lemma FinishRelaysBuiltTx(sign: Tx -> Signing, size: Tx -> nat, tx: Tx, asHex: bool)
    requires Finish(sign, size, Some(tx), asHex).effects != []
    ensures var t := Finish(sign, size, Some(tx), asHex).result.value.tx;
            t.body == tx.body && t.version == tx.version && t.attributes == tx.attributes
            && t.inputs == tx.inputs && t.outputs == tx.outputs
  {
  }
}
