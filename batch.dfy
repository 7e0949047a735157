/**
  What `TxHandler.handleTxs` computes, stated without its loops: the effect of
  accepting one transaction on the pool, one sweep over the candidates, and
  sweeps repeated until one accepts nothing.
 */
module Batch {
  import opened Utxos
  import opened Transactions
  import opened Validity

  // ---------------------------------------------------------------------
  // Accepting one transaction

  /** The pool after `addUTXO(new UTXO(tx.getHash(), i), tx.getOutput(i))` for the first `n` outputs. */
  function AddOutputs(pool: Pool, tx: Transaction, n: nat): Pool
    requires n <= |tx.outputs|
  {
    if n == 0 then pool else AddOutputs(pool, tx, n - 1)[Created(tx, n - 1) := tx.outputs[n - 1]]
  }

  /** The pool after `removeUTXO` of the identifier spent by each of the first `n` inputs. */
  function RemoveInputs(pool: Pool, tx: Transaction, n: nat): Pool
    requires n <= |tx.inputs|
  {
    if n == 0 then pool else RemoveInputs(pool, tx, n - 1) - {Spent(tx.inputs[n - 1])}
  }

  /** The pool after accepting `tx`: all its outputs added, then all its spent identifiers removed. */
  function Apply(pool: Pool, tx: Transaction): Pool
  {
    RemoveInputs(AddOutputs(pool, tx, |tx.outputs|), tx, |tx.inputs|)
  }

  /** The identifiers spent by the inputs of `tx`. */
  function SpentBy(tx: Transaction): set<Utxo>
  {
    SpentBefore(tx, |tx.inputs|)
  }

  /** The identifiers of the outputs of `tx`. */
  function CreatedBy(tx: Transaction): set<Utxo>
  {
    set i | 0 <= i < |tx.outputs| :: Created(tx, i)
  }

  lemma {:induction false} AddOutputsEffect(pool: Pool, tx: Transaction, n: nat, u: Utxo)
    requires n <= |tx.outputs|
    ensures u in AddOutputs(pool, tx, n) <==> u in pool || (u.txHash == tx.hash && 0 <= u.index < n)
    ensures u in AddOutputs(pool, tx, n) && u.txHash == tx.hash && 0 <= u.index < n ==>
      AddOutputs(pool, tx, n)[u] == tx.outputs[u.index]
    ensures u in pool && !(u.txHash == tx.hash && 0 <= u.index < n) ==>
      AddOutputs(pool, tx, n)[u] == pool[u]
  {
    if n > 0 {
      AddOutputsEffect(pool, tx, n - 1, u);
    }
  }

  lemma {:induction false} RemoveInputsEffect(pool: Pool, tx: Transaction, n: nat, u: Utxo)
    requires n <= |tx.inputs|
    ensures u in RemoveInputs(pool, tx, n) <==> u in pool && u !in SpentBefore(tx, n)
    ensures u in RemoveInputs(pool, tx, n) ==> RemoveInputs(pool, tx, n)[u] == pool[u]
  {
    if n > 0 {
      RemoveInputsEffect(pool, tx, n - 1, u);
      assert SpentBefore(tx, n) == SpentBefore(tx, n - 1) + {Spent(tx.inputs[n - 1])};
    }
  }

  /**
    Accepting `tx` removes every identifier it spends (a removal wins over an
    addition of the same identifier), maps every other identifier it creates to
    the created output, and leaves every other identifier as it was.
   */
  lemma ApplyEffect(pool: Pool, tx: Transaction, u: Utxo)
    ensures u in SpentBy(tx) ==> u !in Apply(pool, tx)
    ensures u !in SpentBy(tx) && u in CreatedBy(tx) ==>
      u in Apply(pool, tx) && Apply(pool, tx)[u] == tx.outputs[u.index]
    ensures u !in SpentBy(tx) && u !in CreatedBy(tx) ==>
      (u in Apply(pool, tx) <==> u in pool) && (u in pool ==> Apply(pool, tx)[u] == pool[u])
  {
    AddOutputsEffect(pool, tx, |tx.outputs|, u);
    RemoveInputsEffect(AddOutputs(pool, tx, |tx.outputs|), tx, |tx.inputs|, u);
    if u.txHash == tx.hash && 0 <= u.index < |tx.outputs| {
      assert u == Created(tx, u.index);
    }
  }

  // ---------------------------------------------------------------------
  // One sweep over the candidates

  /** The state of a sweep: the pool, the accepted set `txVis` and the `updated` flag. */
  datatype Sweep = Sweep(pool: Pool, accepted: set<Transaction>, updated: bool)

  /** One iteration of the inner loop: skip an accepted candidate, accept a valid one, leave an invalid one. */
  function Step(test: DoubleSpendTest, signing: Signing, s: Sweep, tx: Transaction): Sweep
  {
    if tx in s.accepted then s
    else if Accepts(test, s.pool, signing, tx) then Sweep(Apply(s.pool, tx), s.accepted + {tx}, true)
    else s
  }

  /** The inner loop over the first `k` candidates, from `pool` and `accepted` with `updated` false. */
  function Pass(test: DoubleSpendTest, signing: Signing, pool: Pool, accepted: set<Transaction>, txs: seq<Transaction>, k: nat): (s: Sweep)
    requires k <= |txs|
    ensures accepted <= s.accepted
    ensures accepted <= Candidates(txs) ==> s.accepted <= Candidates(txs)
  {
    if k == 0 then Sweep(pool, accepted, false)
    else Step(test, signing, Pass(test, signing, pool, accepted, txs, k - 1), txs[k - 1])
  }

  /**
    A sweep only adds candidates it visits, sets `updated` exactly when it
    accepts a candidate not accepted before, and leaves the pool as it was when
    it sets nothing.
   */
  lemma {:induction false} PassEffect(test: DoubleSpendTest, signing: Signing, pool: Pool, accepted: set<Transaction>, txs: seq<Transaction>, k: nat)
    requires k <= |txs|
    ensures var s := Pass(test, signing, pool, accepted, txs, k);
      && accepted <= s.accepted
      && (forall t :: t in s.accepted ==> t in accepted || t in txs[..k])
      && (s.updated <==> s.accepted != accepted)
      && (!s.updated ==> s.pool == pool)
  {
    if k > 0 {
      PassEffect(test, signing, pool, accepted, txs, k - 1);
      assert txs[..k] == txs[..k - 1] + [txs[k - 1]];
    }
  }

  /** A sweep that sets nothing found every candidate it visited either accepted already or invalid against the pool. */
  lemma {:induction false} QuietPassRejectedAll(test: DoubleSpendTest, signing: Signing, pool: Pool, accepted: set<Transaction>, txs: seq<Transaction>, k: nat)
    requires k <= |txs|
    requires !Pass(test, signing, pool, accepted, txs, k).updated
    ensures forall j :: 0 <= j < k && txs[j] !in accepted ==> !Accepts(test, pool, signing, txs[j])
  {
    if k > 0 {
      var s := Pass(test, signing, pool, accepted, txs, k - 1);
      assert !s.updated;
      PassEffect(test, signing, pool, accepted, txs, k - 1);
      QuietPassRejectedAll(test, signing, pool, accepted, txs, k - 1);
    }
  }

  /** A proper subset has fewer elements. */
  lemma {:induction false} ProperSubsetSmaller<T>(a: set<T>, b: set<T>)
    requires a < b
    ensures |a| < |b|
  {
    assert b == a + (b - a);
    var x :| x in b - a;
    SubsetNoLarger(a, b - {x});
  }

  lemma {:induction false} SubsetNoLarger<T>(a: set<T>, b: set<T>)
    requires a <= b
    ensures |a| <= |b|
    decreases a
  {
    if a != {} {
      var x :| x in a;
      SubsetNoLarger(a - {x}, b - {x});
    }
  }

  /** A sweep that goes on leaves fewer candidates unaccepted. */
  lemma SweepProgress(test: DoubleSpendTest, signing: Signing, pool: Pool, accepted: set<Transaction>, txs: seq<Transaction>)
    requires accepted <= Candidates(txs)
    ensures var s := Pass(test, signing, pool, accepted, txs, |txs|);
      && s.accepted <= Candidates(txs)
      && (s.updated ==> |Candidates(txs) - s.accepted| < |Candidates(txs) - accepted|)
  {
    var s := Pass(test, signing, pool, accepted, txs, |txs|);
    PassEffect(test, signing, pool, accepted, txs, |txs|);
    assert txs[..|txs|] == txs;
    if s.updated {
      ProperSubsetSmaller(Candidates(txs) - s.accepted, Candidates(txs) - accepted);
    }
  }

  // ---------------------------------------------------------------------
  // Sweeps until one accepts nothing

  /** The candidates of a batch, as a set. */
  function Candidates(txs: seq<Transaction>): set<Transaction>
  {
    set t | t in txs
  }

  /** The pool and the accepted set when `handleTxs` leaves its outer loop. */
  datatype Outcome = Outcome(pool: Pool, accepted: set<Transaction>)

  /**
    The outer loop from `pool` and `accepted`: sweep; stop if the sweep accepted
    nothing, else sweep again. Every sweep that goes on accepts a candidate not
    accepted before, so the candidates not yet accepted decrease.
   */
  function Settle(test: DoubleSpendTest, signing: Signing, pool: Pool, accepted: set<Transaction>, txs: seq<Transaction>): (r: Outcome)
    requires accepted <= Candidates(txs)
    ensures accepted <= r.accepted <= Candidates(txs)
    decreases |Candidates(txs) - accepted|
  {
    var s := Pass(test, signing, pool, accepted, txs, |txs|);
    SweepProgress(test, signing, pool, accepted, txs);
    if !s.updated then Outcome(pool, accepted)
    else Settle(test, signing, s.pool, s.accepted, txs)
  }

  /**
    At the end no further progress is possible: every candidate left out is
    invalid against the final pool. The accepted set only grows and holds only
    candidates.
   */
  lemma {:induction false} SettleIsFixedPoint(test: DoubleSpendTest, signing: Signing, pool: Pool, accepted: set<Transaction>, txs: seq<Transaction>)
    requires accepted <= Candidates(txs)
    ensures var r := Settle(test, signing, pool, accepted, txs);
      && accepted <= r.accepted <= Candidates(txs)
      && forall t :: t in txs && t !in r.accepted ==> !Accepts(test, r.pool, signing, t)
    decreases |Candidates(txs) - accepted|
  {
    var s := Pass(test, signing, pool, accepted, txs, |txs|);
    SweepProgress(test, signing, pool, accepted, txs);
    PassEffect(test, signing, pool, accepted, txs, |txs|);
    if s.updated {
      SettleIsFixedPoint(test, signing, s.pool, s.accepted, txs);
    } else {
      QuietPassRejectedAll(test, signing, pool, accepted, txs, |txs|);
      forall t | t in txs && t !in accepted
        ensures !Accepts(test, pool, signing, t)
      {
        var j :| 0 <= j < |txs| && txs[j] == t;
      }
    }
  }

  /**
    A sweep changes an identifier only through the candidates it accepts: an
    identifier that no newly accepted transaction spends or creates keeps its
    presence and its output.
   */
  lemma {:induction false} PassFrame(test: DoubleSpendTest, signing: Signing, pool: Pool, accepted: set<Transaction>, txs: seq<Transaction>, k: nat, u: Utxo)
    requires k <= |txs|
    requires forall t :: t in Pass(test, signing, pool, accepted, txs, k).accepted - accepted ==>
      u !in SpentBy(t) && u !in CreatedBy(t)
    ensures var s := Pass(test, signing, pool, accepted, txs, k);
      (u in s.pool <==> u in pool) && (u in pool ==> s.pool[u] == pool[u])
  {
    if k > 0 {
      var s := Pass(test, signing, pool, accepted, txs, k - 1);
      PassEffect(test, signing, pool, accepted, txs, k - 1);
      PassFrame(test, signing, pool, accepted, txs, k - 1, u);
      var tx := txs[k - 1];
      if tx !in s.accepted && Accepts(test, s.pool, signing, tx) {
        ApplyEffect(s.pool, tx, u);
      }
    }
  }

  /**
    The whole batch changes an identifier only through the transactions it
    accepts: one that no newly accepted transaction spends or creates is in
    the final pool exactly when it was in the pool before, with the same output.
   */
  lemma {:induction false} SettleFrame(test: DoubleSpendTest, signing: Signing, pool: Pool, accepted: set<Transaction>, txs: seq<Transaction>, u: Utxo)
    requires accepted <= Candidates(txs)
    requires forall t :: t in Settle(test, signing, pool, accepted, txs).accepted - accepted ==>
      u !in SpentBy(t) && u !in CreatedBy(t)
    ensures var r := Settle(test, signing, pool, accepted, txs);
      (u in r.pool <==> u in pool) && (u in pool ==> r.pool[u] == pool[u])
    decreases |Candidates(txs) - accepted|
  {
    var s := Pass(test, signing, pool, accepted, txs, |txs|);
    SweepProgress(test, signing, pool, accepted, txs);
    PassEffect(test, signing, pool, accepted, txs, |txs|);
    if s.updated {
      SettleIsFixedPoint(test, signing, s.pool, s.accepted, txs);
      PassFrame(test, signing, pool, accepted, txs, |txs|, u);
      SettleFrame(test, signing, s.pool, s.accepted, txs, u);
    }
  }

  // ---------------------------------------------------------------------
  // Consequences of the check as written

  /** A sweep, with the check as written, never removes an identifier and accepts only input-free, zero-valued transactions. */
  lemma {:induction false} PassOnlyAddsZeros(signing: Signing, pool: Pool, accepted: set<Transaction>, txs: seq<Transaction>, k: nat)
    requires k <= |txs|
    ensures var s := Pass(AsWritten, signing, pool, accepted, txs, k);
      && pool.Keys <= s.pool.Keys
      && forall t :: t in s.accepted && t !in accepted ==> ZeroValued(t)
  {
    if k > 0 {
      PassOnlyAddsZeros(signing, pool, accepted, txs, k - 1);
      var s := Pass(AsWritten, signing, pool, accepted, txs, k - 1);
      var tx := txs[k - 1];
      if tx !in s.accepted && Accepts(AsWritten, s.pool, signing, tx) {
        ValidTxIff(s.pool, signing, tx);
        forall u | u in s.pool
          ensures u in Apply(s.pool, tx)
        {
          ApplyEffect(s.pool, tx, u);
        }
      }
    }
  }

  /** So `handleTxs` as written never spends an input: the pool only gains identifiers, and every accepted transaction has no inputs and outputs worth 0. */
  lemma {:induction false} SettleOnlyAddsZeros(signing: Signing, pool: Pool, accepted: set<Transaction>, txs: seq<Transaction>)
    requires accepted <= Candidates(txs)
    ensures var r := Settle(AsWritten, signing, pool, accepted, txs);
      && pool.Keys <= r.pool.Keys
      && forall t :: t in r.accepted && t !in accepted ==> ZeroValued(t)
    decreases |Candidates(txs) - accepted|
  {
    var s := Pass(AsWritten, signing, pool, accepted, txs, |txs|);
    SweepProgress(AsWritten, signing, pool, accepted, txs);
    PassEffect(AsWritten, signing, pool, accepted, txs, |txs|);
    PassOnlyAddsZeros(signing, pool, accepted, txs, |txs|);
    if s.updated {
      SettleOnlyAddsZeros(signing, s.pool, s.accepted, txs);
    }
  }

  /**
    As written, `handleTxs` accepts exactly the input-free, zero-valued
    candidates, whatever the pool and the order of the batch.
   */
  lemma SettleAsWrittenAccepts(signing: Signing, pool: Pool, txs: seq<Transaction>)
    ensures Settle(AsWritten, signing, pool, {}, txs).accepted == set t | t in txs && ZeroValued(t)
  {
    var r := Settle(AsWritten, signing, pool, {}, txs);
    SettleOnlyAddsZeros(signing, pool, {}, txs);
    SettleIsFixedPoint(AsWritten, signing, pool, {}, txs);
    forall t | t in txs && ZeroValued(t)
      ensures t in r.accepted
    {
      ValidTxIff(r.pool, signing, t);
    }
  }

  /** Hence, as written, two batches with the same candidates accept the same transactions, in whatever order they are listed. */
  lemma AsWrittenOrderIrrelevant(signing: Signing, pool: Pool, txs1: seq<Transaction>, txs2: seq<Transaction>)
    requires Candidates(txs1) == Candidates(txs2)
    ensures Settle(AsWritten, signing, pool, {}, txs1).accepted == Settle(AsWritten, signing, pool, {}, txs2).accepted
  {
    SettleAsWrittenAccepts(signing, pool, txs1);
    SettleAsWrittenAccepts(signing, pool, txs2);
    assert forall t :: t in txs1 <==> t in Candidates(txs1);
    assert forall t :: t in txs2 <==> t in Candidates(txs2);
  }

  /**
    As written, the accepted transactions are mutually valid: each is valid
    against the pool before the batch and against the pool after it.
   */
  lemma SettleAsWrittenSound(signing: Signing, pool: Pool, accepted: set<Transaction>, txs: seq<Transaction>)
    requires accepted <= Candidates(txs)
    ensures var r := Settle(AsWritten, signing, pool, accepted, txs);
      forall t :: t in r.accepted - accepted ==> ValidTx(pool, signing, t) && ValidTx(r.pool, signing, t)
  {
    var r := Settle(AsWritten, signing, pool, accepted, txs);
    SettleOnlyAddsZeros(signing, pool, accepted, txs);
    forall t | t in r.accepted - accepted
      ensures ValidTx(pool, signing, t) && ValidTx(r.pool, signing, t)
    {
      ValidTxIff(pool, signing, t);
      ValidTxIff(r.pool, signing, t);
    }
  }

  /**
    Spending nothing does not mean changing nothing: as written, an accepted
    input-free transaction whose hash names an identifier already in the pool
    replaces that identifier's output.
   */
  lemma AsWrittenOverwrites()
    ensures
      var owner := PublicKey([]);
      var signing := Signing((key, msg, sig) => true, (t, i) => []);
      var pool := map[Utxo([10], 0) := Output(5, owner)];
      var t := Transaction([10], [], [Output(0, owner)]);
      Settle(AsWritten, signing, pool, {}, [t]) == Outcome(map[Utxo([10], 0) := Output(0, owner)], {t})
  {
    var owner := PublicKey([]);
    var signing := Signing((key, msg, sig) => true, (t, i) => []);
    var pool := map[Utxo([10], 0) := Output(5, owner)];
    var t := Transaction([10], [], [Output(0, owner)]);
    var pool1 := map[Utxo([10], 0) := Output(0, owner)];
    assert Candidates([t]) == {t};
    assert SumOut(t.outputs, 1) == 0;
    assert ValidTx(pool, signing, t);
    assert AddOutputs(pool, t, 1) == pool1;
    assert Apply(pool, t) == pool1;
    assert Pass(AsWritten, signing, pool, {}, [t], 1) == Sweep(pool1, {t}, true);
    assert Pass(AsWritten, signing, pool1, {t}, [t], 1) == Sweep(pool1, {t}, false);
  }

  /**
    Under the documented check the order of the batch matters: `a` and `b`
    both spend the one output of the pool, and whichever is listed first is
    accepted while the other is left out.
   */
  lemma DocumentedOrderMatters()
    ensures
      var owner := PublicKey([]);
      var signing := Signing((key, msg, sig) => true, (t, i) => []);
      var pool := map[Utxo([1], 0) := Output(5, owner)];
      var a := Transaction([2], [Input([1], 0, [])], [Output(5, owner)]);
      var b := Transaction([3], [Input([1], 0, [])], [Output(4, owner)]);
      && Settle(Documented, signing, pool, {}, [a, b]).accepted == {a}
      && Settle(Documented, signing, pool, {}, [b, a]).accepted == {b}
  {
    var owner := PublicKey([]);
    var signing := Signing((key, msg, sig) => true, (t, i) => []);
    var pool := map[Utxo([1], 0) := Output(5, owner)];
    var a := Transaction([2], [Input([1], 0, [])], [Output(5, owner)]);
    var b := Transaction([3], [Input([1], 0, [])], [Output(4, owner)]);
    assert SpentBefore(a, 0) == {} && SpentBefore(b, 0) == {};
    assert SumIn(pool, a, 1) == 5 && SumOut(a.outputs, 1) == 5;
    assert SumIn(pool, b, 1) == 5 && SumOut(b.outputs, 1) == 4;
    assert IntendedValidTx(pool, signing, a) && IntendedValidTx(pool, signing, b);
    OnlySpendAccepted(signing, pool, a, b, [a, b]);
    OnlySpendAccepted(signing, pool, b, a, [b, a]);
  }

  /** From `pool`, `first` and `second` each spend `Utxo([1], 0)` and are valid; listed as `[first, second]`, only `first` is accepted. */
  lemma OnlySpendAccepted(signing: Signing, pool: Pool, first: Transaction, second: Transaction, txs: seq<Transaction>)
    requires pool == map[Utxo([1], 0) := Output(5, PublicKey([]))]
    requires txs == [first, second] && first != second
    requires first.inputs == second.inputs == [Input([1], 0, [])]
    requires |first.outputs| == |second.outputs| == 1 && first.hash != [1] && second.hash != [1]
    requires IntendedValidTx(pool, signing, first)
    ensures Settle(Documented, signing, pool, {}, txs).accepted == {first}
  {
    assert Candidates(txs) == {first, second};
    var pool1 := map[Created(first, 0) := first.outputs[0]];
    assert AddOutputs(pool, first, 1) == pool[Created(first, 0) := first.outputs[0]];
    var added := pool[Created(first, 0) := first.outputs[0]];
    assert RemoveInputs(added, first, 1) == added - {Utxo([1], 0)};
    assert added - {Utxo([1], 0)} == pool1;
    assert !IntendedValidTx(pool1, signing, second) by {
      assert !InputAuthorized(pool1, signing, second, 0);
    }
    assert Pass(Documented, signing, pool, {}, txs, 1) == Sweep(pool1, {first}, true);
    assert Pass(Documented, signing, pool, {}, txs, 2) == Sweep(pool1, {first}, true);
    assert Pass(Documented, signing, pool1, {first}, txs, 1) == Sweep(pool1, {first}, false);
    assert Pass(Documented, signing, pool1, {first}, txs, 2) == Sweep(pool1, {first}, false);
  }

  // ---------------------------------------------------------------------
  // A batch whose second candidate spends an output of the first

  /**
    Transaction `b` spends output 0 of `a` and is listed before it. With the
    documented check the first sweep accepts `a`, the second accepts `b`, the
    third accepts nothing: both are accepted, `a`'s other output stays and
    every spent identifier is gone. With the check as written neither is
    accepted, since both have inputs.
   */
  lemma ChainedBatch()
    ensures
      var owner := PublicKey([]);
      var signing := Signing((key, msg, sig) => true, (t, i) => []);
      var pool := map[Utxo([1], 0) := Output(5, owner)];
      var a := Transaction([10], [Input([1], 0, [])], [Output(3, owner), Output(2, owner)]);
      var b := Transaction([11], [Input([10], 0, [])], [Output(3, owner)]);
      && Settle(Documented, signing, pool, {}, [b, a])
         == Outcome(map[Utxo([10], 1) := Output(2, owner), Utxo([11], 0) := Output(3, owner)], {a, b})
      && Settle(AsWritten, signing, pool, {}, [b, a]).accepted == {}
  {
    var owner := PublicKey([]);
    var signing := Signing((key, msg, sig) => true, (t, i) => []);
    var pool := map[Utxo([1], 0) := Output(5, owner)];
    var a := Transaction([10], [Input([1], 0, [])], [Output(3, owner), Output(2, owner)]);
    var b := Transaction([11], [Input([10], 0, [])], [Output(3, owner)]);
    var txs := [b, a];
    assert Candidates(txs) == {a, b};
    var pool1 := map[Utxo([10], 0) := Output(3, owner), Utxo([10], 1) := Output(2, owner)];
    var pool2 := map[Utxo([10], 1) := Output(2, owner), Utxo([11], 0) := Output(3, owner)];

    // First sweep: `b` spends an identifier not yet in the pool; `a` is accepted.
    assert !IntendedValidTx(pool, signing, b) by {
      assert !InputAuthorized(pool, signing, b, 0);
    }
    assert SpentBefore(a, 0) == {};
    assert SumIn(pool, a, 1) == 5;
    assert SumOut(a.outputs, 1) == 3;
    assert IntendedValidTx(pool, signing, a);
    assert AddOutputs(pool, a, 1) == pool[Utxo([10], 0) := Output(3, owner)];
    assert AddOutputs(pool, a, 2) == pool[Utxo([10], 0) := Output(3, owner)][Utxo([10], 1) := Output(2, owner)];
    var added := pool[Utxo([10], 0) := Output(3, owner)][Utxo([10], 1) := Output(2, owner)];
    assert RemoveInputs(added, a, 1) == added - {Utxo([1], 0)};
    assert added - {Utxo([1], 0)} == pool1;
    assert Apply(pool, a) == pool1;
    assert Pass(Documented, signing, pool, {}, txs, 1) == Sweep(pool, {}, false);
    assert Pass(Documented, signing, pool, {}, txs, 2) == Sweep(pool1, {a}, true);
    assert Settle(Documented, signing, pool, {}, txs) == Settle(Documented, signing, pool1, {a}, txs);

    // Second sweep: `b` now spends an output of `a` and is accepted.
    assert SpentBefore(b, 0) == {};
    assert SumIn(pool1, b, 1) == 3;
    assert SumOut(b.outputs, 1) == 3;
    assert IntendedValidTx(pool1, signing, b);
    assert AddOutputs(pool1, b, 1) == pool1[Utxo([11], 0) := Output(3, owner)];
    var added1 := pool1[Utxo([11], 0) := Output(3, owner)];
    assert RemoveInputs(added1, b, 1) == added1 - {Utxo([10], 0)};
    assert added1 - {Utxo([10], 0)} == pool2;
    assert Apply(pool1, b) == pool2;
    assert Pass(Documented, signing, pool1, {a}, txs, 1) == Sweep(pool2, {a, b}, true);
    assert Pass(Documented, signing, pool1, {a}, txs, 2) == Sweep(pool2, {a, b}, true);
    assert Settle(Documented, signing, pool1, {a}, txs) == Settle(Documented, signing, pool2, {a, b}, txs);

    // Third sweep: nothing left to accept.
    assert Pass(Documented, signing, pool2, {a, b}, txs, 1) == Sweep(pool2, {a, b}, false);
    assert Pass(Documented, signing, pool2, {a, b}, txs, 2) == Sweep(pool2, {a, b}, false);

    // As written: only input-free transactions are ever accepted.
    SettleOnlyAddsZeros(signing, pool, {}, txs);
    SettleIsFixedPoint(AsWritten, signing, pool, {}, txs);
    var r := Settle(AsWritten, signing, pool, {}, txs);
    assert a !in r.accepted && b !in r.accepted;
  }
}
