/**
  What `TxHandler.isValidTx` decides about one transaction against one pool,
  stated without its loop.

  The Java method's double-spend test reads `if (!used.contains(utxo)) return
  false;` while `used` starts empty, so as written an input is accepted only if
  an EARLIER input of the same transaction already spent the same identifier.
  `ValidTx` keeps that test as written; `IntendedValidTx` states the check the
  method's documentation describes (no identifier spent twice).
 */
module Validity {
  import opened Utxos
  import opened Transactions

  /** The pool of unspent outputs. */
  type Pool = map<Utxo, Output>

  /** Input `i` spends an identifier of the pool and its signature verifies against that output's owner. */
  predicate InputAuthorized(pool: Pool, signing: Signing, tx: Transaction, i: nat)
    requires i < |tx.inputs|
  {
    var u := Spent(tx.inputs[i]);
    && u in pool
    && signing.verifySignature(pool[u].address, signing.rawDataToSign(tx, i), tx.inputs[i].signature)
  }

  /** The identifiers spent by the inputs before position `i`: the `used` set when input `i` is examined. */
  function SpentBefore(tx: Transaction, i: nat): set<Utxo>
    requires i <= |tx.inputs|
  {
    set j | 0 <= j < i :: Spent(tx.inputs[j])
  }

  /** `used` starts empty and each examined input adds the identifier it spends. */
  lemma SpentBeforeSteps(tx: Transaction, i: nat)
    requires i < |tx.inputs|
    ensures SpentBefore(tx, 0) == {}
    ensures SpentBefore(tx, i + 1) == SpentBefore(tx, i) + {Spent(tx.inputs[i])}
  {
  }

  /** Every input of `tx` spends an identifier of the pool. */
  predicate AllSpentInPool(pool: Pool, tx: Transaction)
  {
    forall i :: 0 <= i < |tx.inputs| ==> Spent(tx.inputs[i]) in pool
  }

  /** The value of the outputs spent by the first `n` inputs. */
  function SumIn(pool: Pool, tx: Transaction, n: nat): int
    requires n <= |tx.inputs|
    requires forall j :: 0 <= j < n ==> Spent(tx.inputs[j]) in pool
  {
    if n == 0 then 0 else SumIn(pool, tx, n - 1) + pool[Spent(tx.inputs[n - 1])].value
  }

  /** The value of the first `n` outputs. */
  function SumOut(outputs: seq<Output>, n: nat): int
    requires n <= |outputs|
  {
    if n == 0 then 0 else SumOut(outputs, n - 1) + outputs[n - 1].value
  }

  predicate OutputsNonNegative(tx: Transaction)
  {
    forall j :: 0 <= j < |tx.outputs| ==> tx.outputs[j].value >= 0
  }

  /** `isValidTx` as written: every input authorized and already in `used`, no negative output, inputs cover outputs. */
  predicate ValidTx(pool: Pool, signing: Signing, tx: Transaction)
  {
    && (forall i :: 0 <= i < |tx.inputs| ==>
          InputAuthorized(pool, signing, tx, i) && Spent(tx.inputs[i]) in SpentBefore(tx, i))
    && OutputsNonNegative(tx)
    && SumIn(pool, tx, |tx.inputs|) >= SumOut(tx.outputs, |tx.outputs|)
  }

  /** The five documented checks: the same, with input `i` required NOT to be in `used`. */
  predicate IntendedValidTx(pool: Pool, signing: Signing, tx: Transaction)
  {
    && (forall i :: 0 <= i < |tx.inputs| ==>
          InputAuthorized(pool, signing, tx, i) && Spent(tx.inputs[i]) !in SpentBefore(tx, i))
    && OutputsNonNegative(tx)
    && SumIn(pool, tx, |tx.inputs|) >= SumOut(tx.outputs, |tx.outputs|)
  }

  /** Which form of the double-spend test a check uses: the one written at TxHandler.java:36, or the documented one. */
  datatype DoubleSpendTest = AsWritten | Documented

  /** The check with the given form of the double-spend test. */
  predicate Accepts(test: DoubleSpendTest, pool: Pool, signing: Signing, tx: Transaction)
  {
    match test
    case AsWritten => ValidTx(pool, signing, tx)
    case Documented => IntendedValidTx(pool, signing, tx)
  }

  /** The shape of transaction the check as written accepts: no inputs and every output worth 0. */
  predicate ZeroValued(t: Transaction)
  {
    |t.inputs| == 0 && forall j :: 0 <= j < |t.outputs| ==> t.outputs[j].value == 0
  }

  /** No two inputs of `tx` spend the same identifier. */
  predicate DistinctSpends(tx: Transaction)
  {
    forall i, j :: 0 <= i < j < |tx.inputs| ==> Spent(tx.inputs[i]) != Spent(tx.inputs[j])
  }

  // ---------------------------------------------------------------------
  // Sums

  lemma {:induction false} SumOutNonNegative(outputs: seq<Output>, n: nat)
    requires n <= |outputs|
    requires forall j :: 0 <= j < n ==> outputs[j].value >= 0
    ensures SumOut(outputs, n) >= 0
    ensures SumOut(outputs, n) == 0 <==> forall j :: 0 <= j < n ==> outputs[j].value == 0
  {
    if n > 0 {
      SumOutNonNegative(outputs, n - 1);
    }
  }

  // ---------------------------------------------------------------------
  // Consequences of the check as written

  /** A transaction with at least one input is never valid: its first input finds `used` empty. */
  lemma RejectsEveryTxWithInputs(pool: Pool, signing: Signing, tx: Transaction)
    requires |tx.inputs| > 0
    ensures !ValidTx(pool, signing, tx)
  {
    assert Spent(tx.inputs[0]) !in SpentBefore(tx, 0);
  }

  /** In particular a transaction spending one identifier twice is never valid. */
  lemma RejectsDoubleSpend(pool: Pool, signing: Signing, tx: Transaction, i: nat, j: nat)
    requires i < j < |tx.inputs| && Spent(tx.inputs[i]) == Spent(tx.inputs[j])
    ensures !ValidTx(pool, signing, tx)
  {
    RejectsEveryTxWithInputs(pool, signing, tx);
  }

  /** The check as written accepts exactly the transactions with no inputs whose outputs are all worth 0. */
  lemma ValidTxIff(pool: Pool, signing: Signing, tx: Transaction)
    ensures ValidTx(pool, signing, tx) <==>
      ZeroValued(tx)
  {
    if |tx.inputs| > 0 {
      RejectsEveryTxWithInputs(pool, signing, tx);
    } else if OutputsNonNegative(tx) {
      SumOutNonNegative(tx.outputs, |tx.outputs|);
    }
  }

  /** Each of the checks rejects on its own, whichever form line 36 takes. */
  lemma EachCheckRejects(pool: Pool, signing: Signing, tx: Transaction)
    ensures (exists i :: 0 <= i < |tx.inputs| && Spent(tx.inputs[i]) !in pool) ==>
      !ValidTx(pool, signing, tx) && !IntendedValidTx(pool, signing, tx)
    ensures (exists i :: 0 <= i < |tx.inputs| && !InputAuthorized(pool, signing, tx, i)) ==>
      !ValidTx(pool, signing, tx) && !IntendedValidTx(pool, signing, tx)
    ensures (exists j :: 0 <= j < |tx.outputs| && tx.outputs[j].value < 0) ==>
      !ValidTx(pool, signing, tx) && !IntendedValidTx(pool, signing, tx)
    ensures AllSpentInPool(pool, tx) && SumIn(pool, tx, |tx.inputs|) < SumOut(tx.outputs, |tx.outputs|) ==>
      !ValidTx(pool, signing, tx) && !IntendedValidTx(pool, signing, tx)
  {
  }

  // ---------------------------------------------------------------------
  // The documented check

  /** `used` grows one identifier at a time, so "not yet used" at every step means "no identifier twice". */
  lemma {:induction false} NotUsedBeforeIffDistinct(tx: Transaction, n: nat)
    requires n <= |tx.inputs|
    ensures (forall i :: 0 <= i < n ==> Spent(tx.inputs[i]) !in SpentBefore(tx, i)) <==>
      (forall i, j :: 0 <= i < j < n ==> Spent(tx.inputs[i]) != Spent(tx.inputs[j]))
  {
    if n > 0 {
      NotUsedBeforeIffDistinct(tx, n - 1);
      var last := Spent(tx.inputs[n - 1]);
      if last in SpentBefore(tx, n - 1) {
        var i :| 0 <= i < n - 1 && Spent(tx.inputs[i]) == last;
      }
    }
  }

  /** The documented check holds exactly when all five documented conditions hold. */
  lemma IntendedValidTxMeaning(pool: Pool, signing: Signing, tx: Transaction)
    ensures IntendedValidTx(pool, signing, tx) <==>
      && (forall i :: 0 <= i < |tx.inputs| ==> Spent(tx.inputs[i]) in pool)
      && (forall i :: 0 <= i < |tx.inputs| ==> InputAuthorized(pool, signing, tx, i))
      && DistinctSpends(tx)
      && OutputsNonNegative(tx)
      && SumIn(pool, tx, |tx.inputs|) >= SumOut(tx.outputs, |tx.outputs|)
  {
    NotUsedBeforeIffDistinct(tx, |tx.inputs|);
  }

  /** Under the documented check, two inputs naming one identifier make the transaction invalid. */
  lemma IntendedRejectsDoubleSpend(pool: Pool, signing: Signing, tx: Transaction, i: nat, j: nat)
    requires i < j < |tx.inputs| && Spent(tx.inputs[i]) == Spent(tx.inputs[j])
    ensures !IntendedValidTx(pool, signing, tx)
  {
    IntendedValidTxMeaning(pool, signing, tx);
  }

  /**
    Where the two differ: one output worth 5, spent once by a transaction
    paying 5 and signed under any signature scheme that accepts it. The
    documented check accepts it; the check as written rejects it.
   */
  lemma HonestSpendRejectedAsWritten()
    ensures
      var owner := PublicKey([]);
      var pool := map[Utxo([1], 0) := Output(5, owner)];
      var signing := Signing((k, m, sig) => true, (t, i) => []);
      var tx := Transaction([2], [Input([1], 0, [])], [Output(5, owner)]);
      IntendedValidTx(pool, signing, tx) && !ValidTx(pool, signing, tx)
  {
    var owner := PublicKey([]);
    var pool := map[Utxo([1], 0) := Output(5, owner)];
    var signing := Signing((k, m, sig) => true, (t, i) => []);
    var tx := Transaction([2], [Input([1], 0, [])], [Output(5, owner)]);
    assert SpentBefore(tx, 0) == {};
    assert SumIn(pool, tx, 1) == 5;
    assert SumOut(tx.outputs, 1) == 5;
    RejectsEveryTxWithInputs(pool, signing, tx);
  }
}
