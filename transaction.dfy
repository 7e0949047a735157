/**
  The collaborators of the transaction handler whose source is not part of
  this model: transactions with their inputs and outputs, and the signature
  check. Only the parts the handler reads are modelled.
 */
module Transactions {
  import opened Utxos

  /** An owner's verification key, compared by its encoding. */
  datatype PublicKey = PublicKey(encoded: seq<Byte>)

  /** A reference to the output being spent, with the spender's signature. */
  datatype Input = Input(prevTxHash: seq<Byte>, outputIndex: int, signature: seq<Byte>)

  /**
    An amount owned by a key. Values are integers here; the Java code keeps
    them as `double`.
   */
  datatype Output = Output(value: int, address: PublicKey)

  /** A transaction: its content hash (treated as given), its inputs and its outputs. */
  datatype Transaction = Transaction(hash: seq<Byte>, inputs: seq<Input>, outputs: seq<Output>)

  /**
    The two operations the handler calls but does not define:
    `Crypto.verifySignature(address, message, signature)` and
    `tx.getRawDataToSign(i)`, the payload input `i` signs. They are left
    uninterpreted: any pair of functions may be supplied.
   */
  datatype Signing = Signing(
    verifySignature: (PublicKey, seq<Byte>, seq<Byte>) -> bool,
    rawDataToSign: (Transaction, int) -> seq<Byte>)

  /** The identifier of the output an input spends: `new UTXO(input.prevTxHash, input.outputIndex)`. */
  function Spent(input: Input): Utxo
  {
    Utxo(input.prevTxHash, input.outputIndex)
  }

  /** The identifier of output `i` of `tx`: `new UTXO(tx.getHash(), i)`. */
  function Created(tx: Transaction, i: int): Utxo
  {
    Utxo(tx.hash, i)
  }
}
