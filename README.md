# ScoroogeCoin transaction handler, modelled in Dafny

The model covers the step of a UTXO ledger that applies a batch of transactions. It has two parts.

- **`UTXO`**: the identifier of one unspent output. It is a copied transaction hash plus an output index. It has byte-wise `equals`, `hashCode`, and a total order `compareTo`.
- **`TxHandler`**: the handler keeps a private copy of the pool of unspent outputs.
  - `isValidTx` checks one transaction against the pool.
  - `handleTxs` sweeps a batch of candidates again and again. It accepts each valid candidate at once, adds its outputs to the pool and removes what it spends. It stops after a sweep that accepts nothing.

Files:

- `utxo.dfy` (module `Utxos`): the identifier as a datatype, with `Equals` and `CompareTo` as loops proved against the pure definitions `SameUtxo` and `Compare`. It also holds the 32-bit `HashCode` and the equality and total-order lemmas. The getters `getTxHash` and `getIndex` are the datatype fields `txHash` and `index`.
- `transaction.dfy` (module `Transactions`): the collaborators whose code is not part of this model. These are `Transaction`, `Input`, `Output`, and `Signing`. `Signing` bundles the signature check and the signable payload as two function values.
- `validity.dfy` (module `Validity`): `ValidTx` is the check exactly as the code is written. `IntendedValidTx` is the check its documentation describes. The module holds the lemmas about both.
- `batch.dfy` (module `Batch`): the specification of `handleTxs`:
  - `Apply` is the effect of accepting one transaction.
  - `Pass` is one sweep.
  - `Settle` repeats sweeps until one accepts nothing.
  - The module also holds the termination, frame and fixed-point lemmas.
- `tx_handler.dfy` (module `Handler`): the `TxHandler` class and its pool.
  - The pool is a `UtxoPool` object holding a `map<Utxo, Output>`.
  - `IsValidTx` and `HandleTxs` are methods with loops, proved against `ValidTx` and `Settle`.

Where the code and its documentation disagree, the model follows the code. The double-spend test at TxHandler.java:36 is kept as written (see Findings). As a consequence, with values taken as integers, `handleTxs` as written accepts exactly the candidates with no inputs whose outputs are all worth 0, whatever their order (`Batch.SettleAsWrittenAccepts`). With Java's `double` values, a NaN output also gets through; see Left out.

Two further points:

- Identifiers are ordered by index first, then hash length, then the first differing signed byte. This is the order `compareTo` uses.
- Under the documented check, the accepted set can depend on the order of the candidates, for example when two candidates spend the same output (`Batch.DocumentedOrderMatters`). For that check the model states only what the loop computes for the given order.

## Model

| member | source | states |
|---|---|---|
| `Utxos.NewUtxo` | UTXO.java:20-23 | The identifier holds the caller's hash bytes as they are at the time of the call, plus the index. |
| `Utxos.WriteAfterConstruction` | UTXO.java:20-23 | A write into the caller's array after construction does not change the identifier's hash. |
| `Utxos.Utxo.Equals` | UTXO.java:41-59 | False for null and for another class. Otherwise true iff indices, hash lengths and every hash byte agree. This is the same as the two identifiers being equal. |
| `Utxos.SameUtxoIsEquality` | UTXO.java:50-58 | Byte-wise equality (same index, same length, same bytes) holds exactly when the identifiers are equal. |
| `Utxos.SameUtxoIsEquivalence` | UTXO.java:41-59 | Byte-wise equality is reflexive, symmetric and transitive. |
| `Utxos.Wrap32` | UTXO.java:61-66 | Java `int` arithmetic: the result lies in [-2^31, 2^31) and is congruent to the exact value modulo 2^32. |
| `Utxos.ArraysHashCode` | UTXO.java:64 | `Arrays.hashCode` of the hash bytes is a 32-bit value. |
| `Utxos.Utxo.HashCode` | UTXO.java:61-66 | `hashCode` is a 32-bit value. |
| `Utxos.HashCodeConsistent` | UTXO.java:41-66 | Identifiers that `equals` calls equal have equal hash codes. |
| `Utxos.Utxo.CompareTo` | UTXO.java:68-92 | The loop with early returns computes `Compare`: the index first, then the hash length, then the bytes. |
| `Utxos.CompareFrom` | UTXO.java:83-88 | The byte loop's result from any position is -1, 0 or 1. |
| `Utxos.Compare` | UTXO.java:68-92 | `compareTo` returns -1, 0 or 1. |
| `Utxos.CompareFromZero` | UTXO.java:83-89 | The byte loop returns 0 iff the remaining bytes are identical. |
| `Utxos.CompareFromLess` | UTXO.java:83-88 | The byte loop returns -1 iff, at the first position where the bytes differ, this hash has the smaller signed byte. |
| `Utxos.CompareFromAntisymmetric` | UTXO.java:83-88 | Swapping the two hashes negates the byte loop's result. |
| `Utxos.CompareFromTransitive` | UTXO.java:83-88 | The byte order is transitive. |
| `Utxos.CompareMeaning` | UTXO.java:71-88 | `a.compareTo(b)` is -1 iff `a` precedes `b`, and 1 iff `b` precedes `a`. Precedes means: a smaller index; else a shorter hash; else a smaller signed byte at the first difference. |
| `Utxos.CompareZeroIffSame` | UTXO.java:41-92 | `compareTo` returns 0 exactly when `equals` returns true. |
| `Utxos.CompareAntisymmetric` | UTXO.java:68-92 | `a.compareTo(b) == -b.compareTo(a)`. |
| `Utxos.CompareTransitive` | UTXO.java:68-92 | `compareTo` is transitive, both strictly (< 0) and weakly (<= 0). |
| `Validity.ValidTx` | TxHandler.java:21-49 | The check as written. Every input's identifier is in the pool, and its signature verifies against that output's owner. Every input's identifier is already in `used` when examined, which is line 36 as written. No output is negative, and the inputs are worth at least the outputs. |
| `Validity.IntendedValidTx` | TxHandler.java:12-19 | The documented check. It is the same as `ValidTx`, except that each input's identifier must NOT yet be in `used`. |
| `Validity.SpentBeforeSteps` | TxHandler.java:24-37 | The model of `used` starts empty (line 24) and grows by exactly the identifier the examined input spends (line 37). |
| `Validity.SumOutNonNegative` | TxHandler.java:41-45 | A sum of non-negative output values is non-negative. It is 0 iff every value is 0. |
| `Validity.RejectsEveryTxWithInputs` | TxHandler.java:24-37 | As written, every transaction with at least one input is invalid, because `used` is empty when the first input is tested. |
| `Validity.RejectsDoubleSpend` | TxHandler.java:36 | As written, a transaction whose two inputs name the same identifier is invalid. |
| `Validity.ValidTxIff` | TxHandler.java:21-49 | For integer values, the check as written accepts exactly the transactions with no inputs whose outputs are all worth 0. |
| `Validity.EachCheckRejects` | TxHandler.java:28-48 | Under either form of line 36, each of these makes the transaction invalid: a spent identifier missing from the pool, a signature that fails against the spent output's owner, a negative output, or inputs worth less than outputs. |
| `Validity.NotUsedBeforeIffDistinct` | TxHandler.java:16 | "Not yet in `used`" at every input is equivalent to "no two inputs spend the same identifier". |
| `Validity.IntendedValidTxMeaning` | TxHandler.java:12-19 | The documented check holds iff all five documented conditions hold. These are: spent identifiers in the pool, signatures valid, no identifier spent twice, outputs non-negative, inputs worth at least the outputs. |
| `Validity.IntendedRejectsDoubleSpend` | TxHandler.java:16 | Under the documented check, two inputs naming one identifier make the transaction invalid. |
| `Validity.HonestSpendRejectedAsWritten` | TxHandler.java:24-37 | Counterexample: a correctly signed spend of one output worth 5, paying 5. The documented check accepts it; the check as written rejects it. |
| `Batch.Apply` | TxHandler.java:62-75 | Accepting one transaction: each output `i` is added under `(hash, i)`, in order, and then each identifier an input spends is removed, in order. |
| `Batch.Step` | TxHandler.java:61-76 | One iteration of the inner loop. An accepted candidate is skipped. A valid one is applied to the pool, added to `txVis`, and sets `updated`. An invalid one changes nothing. |
| `Batch.Pass` | TxHandler.java:59-77 | One sweep: `Step` over the candidates in order, from the current pool and `txVis`, with `updated` false. The accepted set only grows, and it stays within the candidates. |
| `Batch.Settle` | TxHandler.java:56-80 | The outer loop: sweep, and stop after a sweep that sets nothing. It terminates because each further sweep leaves fewer candidates unaccepted. The accepted set only grows, and it stays within the candidates. |
| `Batch.AddOutputsEffect` | TxHandler.java:66-69 | After the output loop, output `i` of the transaction sits under `(hash, i)`, and every other identifier keeps its output. |
| `Batch.RemoveInputsEffect` | TxHandler.java:71-75 | After the input loop, exactly the spent identifiers are gone, and the rest keep their outputs. |
| `Batch.ApplyEffect` | TxHandler.java:62-75 | Accepting a transaction removes every identifier it spends, even one it also creates. It maps each other created identifier to its output. No other identifier changes. |
| `Batch.PassEffect` | TxHandler.java:59-77 | A sweep adds only candidates it visits. `updated` is set iff the sweep accepted a candidate not accepted before. A sweep with `updated` false leaves the pool unchanged. |
| `Batch.QuietPassRejectedAll` | TxHandler.java:59-79 | A sweep that accepts nothing found every candidate it visited either already accepted or invalid against the pool. |
| `Batch.SweepProgress` | TxHandler.java:57-80 | A sweep that goes on leaves strictly fewer candidates unaccepted. This is the termination measure of the outer loop. |
| `Batch.SettleIsFixedPoint` | TxHandler.java:56-80 | The accepted set only grows and holds only candidates. At the end, every candidate left out is invalid against the final pool. |
| `Batch.PassOnlyAddsZeros` | TxHandler.java:59-77 | As written, a sweep never removes an identifier from the pool. For integer values, it accepts only input-free transactions whose outputs are worth 0. |
| `Batch.SettleOnlyAddsZeros` | TxHandler.java:56-80 | As written, `handleTxs` never spends an input. The pool only gains identifiers. Every accepted transaction has no inputs, and for integer values its outputs are worth 0. An existing identifier can still get a new output; see `Batch.AsWrittenOverwrites`. |
| `Batch.PassFrame` | TxHandler.java:59-77 | A sweep changes an identifier only through the candidates it accepts. An identifier that no newly accepted transaction spends or creates keeps its presence and its output. |
| `Batch.SettleFrame` | TxHandler.java:56-80 | The same for the whole batch, under either form of the check. An identifier that no accepted transaction spends or creates is in the final pool exactly when it was before, with the same output. |
| `Batch.SettleAsWrittenAccepts` | TxHandler.java:56-80 | For integer values, the accepted set as written is exactly the candidates with no inputs and all outputs worth 0, for every pool and every order. |
| `Batch.AsWrittenOrderIrrelevant` | TxHandler.java:56-80 | As written, two batches with the same candidates in different orders accept the same transactions. |
| `Batch.SettleAsWrittenSound` | TxHandler.java:52-80 | As written, the accepted transactions are mutually valid: each is valid against the pool before the batch and against the final pool. |
| `Batch.AsWrittenOverwrites` | TxHandler.java:62-69 | Concrete case: an accepted input-free transaction whose hash names an identifier already in the pool replaces that identifier's output (5 becomes 0). |
| `Batch.DocumentedOrderMatters` | TxHandler.java:56-80 | Under the documented check, two valid candidates spend the same output. Whichever is listed first is accepted, and the other is left out. |
| `Batch.OnlySpendAccepted` | TxHandler.java:56-80 | The two sweeps behind `DocumentedOrderMatters`. The first candidate is accepted and removes the shared output, so the second is invalid in both sweeps. |
| `Batch.ChainedBatch` | TxHandler.java:56-80 | Take a candidate listed before the transaction whose output it spends. Under the documented check, both are accepted over two sweeps, and the final pool is given exactly. As written, neither is accepted. |
| `Handler.UtxoPool.Copy` | TxHandler.java:9 | The copied pool has the same entries as the original. |
| `Handler.UtxoPool.AddUtxo` | TxHandler.java:68 | The pool afterwards maps the identifier to the output, and nothing else changes. |
| `Handler.UtxoPool.RemoveUtxo` | TxHandler.java:74 | The pool afterwards lacks the identifier, and nothing else changes. |
| `Handler.TxHandler.constructor` | TxHandler.java:8-10 | The handler's pool is a fresh object with the caller's entries. |
| `Handler.ChangePoolAfterConstruction` | TxHandler.java:8-10 | A caller that changes its own pool after construction leaves the handler's pool as it was. |
| `Handler.TxHandler.IsValidTx` | TxHandler.java:21-49 | Reads the pool and changes nothing. Returns exactly `ValidTx` for the current pool, the check as written. Its input loop keeps `used == SpentBefore(tx, i)`, so line 36 tests the identifiers spent by inputs `0..i-1`. |
| `Handler.TxHandler.Accept` | TxHandler.java:62-75 | The pool afterwards is `Apply` of the old pool: outputs added first, then spent identifiers removed. |
| `Handler.TxHandler.HandleTxs` | TxHandler.java:56-86 | Terminates. The final pool and accepted set are `Settle` of the old pool. The returned array holds each accepted transaction exactly once and nothing else, and its length is the accepted set's size. |

## Left out

- Floating point: input and output values and their sums are `int`. The code uses `double`, so rounding, infinities and NaN are not modelled. NaN matters to the check as written. A NaN output passes the negativity test at TxHandler.java:42, because `NaN < 0` is false. `sumOfOut` then becomes NaN at line 44, and line 48 returns `!(0.0 < NaN)`, which is true. So an input-free transaction with outputs `[NaN, 1000000]` is accepted, and `handleTxs` adds its 1000000 output to the pool. The statements that accepted transactions are zero-valued (`Validity.ValidTxIff`, `Batch.PassOnlyAddsZeros`, `Batch.SettleOnlyAddsZeros`, `Batch.SettleAsWrittenAccepts`) hold only for integer values.
- Signature cryptography: `Crypto.verifySignature` and `Transaction.getRawDataToSign` are arbitrary functions supplied with the handler. Nothing is assumed about them.
- Transaction hashing: `getHash` is a field of the transaction. How it is computed is not modelled.
- Transaction identity: membership in `txVis` uses value equality of the transaction datatype. `Transaction.equals` and `hashCode` are not part of this model.
- Mutual validity under the documented check: `Batch.SettleAsWrittenSound` states it for the check as written. For the documented check, the only statement is the definition of `Step`: each transaction is accepted against the pool at that moment. No lemma orders the accepted set.
- Iteration order: the order in which `handleTxs` copies `txVis` into the result array is an arbitrary choice. Only the contents, the absence of repeats and the length are stated.
- `HashSet` and `HashMap` bucket mechanics: sets and maps are mathematical.
- `Utxos.Utxo.HashCode`: the contract states only that the result is a 32-bit value. The exact value follows the definition, which includes the 32-bit wrap-around.
- Aliasing through `getTxHash`, which returns the internal array: the identifier is a value, so a caller cannot change it through the getter.
- Java's `int` range for the output index: `index` is an unbounded integer. It is only compared, and `hashCode` wraps it explicitly. Output positions in `handleTxs` are below 2^31 in Java anyway.
- `UTXOPool.getTxOutput` on a missing identifier returns null in Java. The handler only calls it after `contains`, so the model reads the map only there.
- Other `UTXOPool` and `Transaction` operations that the handler does not call are not part of this model.

## Findings

| source | as written | input that shows it | evidently intended | confidence | as-written member | corrected member |
|---|---|---|---|---|---|---|
| TxHandler.java:36 | The test rejects an input whose identifier is NOT already in `used`. `used` starts empty, so every transaction with an input is rejected. | A pool with one output worth 5; a transaction spending it once, correctly signed, with one output worth 5. | Reject an input whose identifier IS already in `used`, as item (3) of the comment at TxHandler.java:16 says: no identifier spent twice. | high; not executed | `Validity.HonestSpendRejectedAsWritten` | `Validity.IntendedValidTxMeaning` |

`TxHandler` itself keeps the test as written, since that is what the code does. The batch specification (`Step`, `Pass`, `Settle`) takes the form of the test as a parameter. `PassEffect`, `QuietPassRejectedAll`, `SweepProgress`, `SettleIsFixedPoint`, `PassFrame` and `SettleFrame` hold for both forms. `PassOnlyAddsZeros`, `SettleOnlyAddsZeros`, `SettleAsWrittenAccepts`, `AsWrittenOrderIrrelevant`, `SettleAsWrittenSound` and `AsWrittenOverwrites` are stated for the form as written only. `ChainedBatch` shows that the corrected form accepts a spend that depends on another candidate, while the form as written does not.
