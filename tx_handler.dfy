/**
  The transaction handler: a private pool of unspent outputs, the check of one
  transaction against it, and the processing of a batch of candidates.
 */
module Handler {
  import opened Utxos
  import opened Transactions
  import opened Validity
  import opened Batch

  /** The pool class the handler copies and updates; only the operations the handler calls. */
  class UtxoPool {
    var entries: Pool

    /** `new UTXOPool(other)`: a pool holding the same entries as `other`. */
    constructor Copy(other: UtxoPool)
      ensures entries == other.entries
    {
      entries := other.entries;
    }

    /** `addUTXO`: map `u` to `o`, replacing any earlier output of `u`. */
    method AddUtxo(u: Utxo, o: Output)
      modifies this
      ensures entries == old(entries)[u := o]
    {
      entries := entries[u := o];
    }

    /** `removeUTXO`: drop `u` if present. */
    method RemoveUtxo(u: Utxo)
      modifies this
      ensures entries == old(entries) - {u}
    {
      entries := entries - {u};
    }
  }

  class TxHandler {
    var utxoPool: UtxoPool
    /** The signature check and signable payloads the handler relies on. */
    const signing: Signing

    /** The handler works on its own copy of the caller's pool. */
    constructor(utxoPool: UtxoPool, signing: Signing)
      ensures fresh(this.utxoPool) && this.utxoPool.entries == utxoPool.entries
      ensures this.signing == signing
    {
      this.utxoPool := new UtxoPool.Copy(utxoPool);
      this.signing := signing;
    }

    /**
      `isValidTx`: reads the pool and changes nothing; the answer is the check
      as written (`ValidTx`), so it is the same for the same pool and
      transaction.
     */
    method IsValidTx(tx: Transaction) returns (valid: bool)
      ensures valid == ValidTx(utxoPool.entries, signing, tx)
    {
      var pool := utxoPool.entries;
      var sumOfOut := 0;
      var sumOfIn := 0;
      var used: set<Utxo> := {};
      for i := 0 to |tx.inputs|
        invariant forall j :: 0 <= j < i ==>
          InputAuthorized(pool, signing, tx, j) && Spent(tx.inputs[j]) in SpentBefore(tx, j)
        invariant used == SpentBefore(tx, i)
        invariant sumOfIn == SumIn(pool, tx, i)
      {
        var input := tx.inputs[i];
        var utxo := Utxo(input.prevTxHash, input.outputIndex);
        if utxo !in pool {
          return false;
        }
        var output := pool[utxo];
        if !signing.verifySignature(output.address, signing.rawDataToSign(tx, i), input.signature) {
          return false;
        }
        if utxo !in used {
          return false;
        }
        used := used + {utxo};
        sumOfIn := sumOfIn + output.value;
      }
      for i := 0 to |tx.outputs|
        invariant forall j :: 0 <= j < i ==> tx.outputs[j].value >= 0
        invariant sumOfOut == SumOut(tx.outputs, i)
      {
        var output := tx.outputs[i];
        if output.value < 0 {
          return false;
        }
        sumOfOut := sumOfOut + output.value;
      }
      return !(sumOfIn < sumOfOut);
    }

    /** The effect of accepting `tx`: add each of its outputs, then remove each identifier it spends. */
    method Accept(tx: Transaction)
      modifies utxoPool
      ensures utxoPool.entries == Apply(old(utxoPool.entries), tx)
    {
      ghost var pool0 := utxoPool.entries;
      for i := 0 to |tx.outputs|
        invariant utxoPool.entries == AddOutputs(pool0, tx, i)
      {
        var utxo := Utxo(tx.hash, i);
        utxoPool.AddUtxo(utxo, tx.outputs[i]);
      }
      ghost var added := utxoPool.entries;
      for i := 0 to |tx.inputs|
        invariant utxoPool.entries == RemoveInputs(added, tx, i)
      {
        var input := tx.inputs[i];
        var utxo := Utxo(input.prevTxHash, input.outputIndex);
        utxoPool.RemoveUtxo(utxo);
      }
    }

    /**
      `handleTxs`: sweep the candidates, accepting each valid one at once,
      until a sweep accepts nothing; return the accepted transactions, each
      once, in no particular order.
     */
    method HandleTxs(possibleTxs: array<Transaction>) returns (ret: array<Transaction>)
      modifies utxoPool
      ensures fresh(ret)
      ensures var r := Settle(AsWritten, signing, old(utxoPool.entries), {}, possibleTxs[..]);
        && utxoPool.entries == r.pool
        && ret.Length == |r.accepted|
        && (forall t :: t in ret[..] <==> t in r.accepted)
        && (forall i, j :: 0 <= i < j < ret.Length ==> ret[i] != ret[j])
    {
      ghost var txs := possibleTxs[..];
      ghost var pool0 := utxoPool.entries;
      var txVis: set<Transaction> := {};
      while true
        invariant txVis <= Candidates(txs)
        invariant Settle(AsWritten, signing, utxoPool.entries, txVis, txs) == Settle(AsWritten, signing, pool0, {}, txs)
        decreases |Candidates(txs) - txVis|
      {
        ghost var passPool, passVis := utxoPool.entries, txVis;
        var updated := false;
        for k := 0 to possibleTxs.Length
          invariant Sweep(utxoPool.entries, txVis, updated) == Pass(AsWritten, signing, passPool, passVis, txs, k)
        {
          var tx := possibleTxs[k];
          if tx in txVis {
            continue;
          }
          var valid := IsValidTx(tx);
          if valid {
            txVis := txVis + {tx};
            updated := true;
            Accept(tx);
          }
        }
        SweepProgress(AsWritten, signing, passPool, passVis, txs);
        PassEffect(AsWritten, signing, passPool, passVis, txs, |txs|);
        if !updated {
          assert Settle(AsWritten, signing, utxoPool.entries, txVis, txs) == Outcome(utxoPool.entries, txVis);
          break;
        }
      }
      ret := new Transaction[|txVis|];
      var idx := 0;
      var rest := txVis;
      while rest != {}
        invariant rest <= txVis
        invariant idx + |rest| == |txVis|
        invariant forall t :: t in ret[..idx] <==> t in txVis - rest
        invariant forall i, j :: 0 <= i < j < idx ==> ret[i] != ret[j]
        modifies ret
        decreases |rest|
      {
        var tx :| tx in rest;
        forall i | 0 <= i < idx
          ensures ret[i] != tx
        {
          assert ret[i] in ret[..idx];
        }
        ret[idx] := tx;
        assert ret[..idx + 1] == ret[..idx] + [tx];
        idx := idx + 1;
        rest := rest - {tx};
      }
      assert ret[..] == ret[..idx];
    }
  }

  /** A caller that changes its own pool after constructing a handler does not change the handler's pool. */
  method ChangePoolAfterConstruction(pool: UtxoPool, signing: Signing, u: Utxo, o: Output) returns (handler: TxHandler)
    modifies pool
    ensures fresh(handler) && handler.utxoPool.entries == old(pool.entries)
    ensures pool.entries == old(pool.entries)[u := o]
  {
    handler := new TxHandler(pool, signing);
    pool.AddUtxo(u, o);
  }
}
