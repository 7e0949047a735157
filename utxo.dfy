/**
  The identifier of one unspent transaction output: the hash of the
  transaction that produced it and the position of the output in that
  transaction.

  The Java class keeps a private copy of the hash array and never changes it,
  so an identifier behaves as a value; it is modelled as a datatype, which is
  also what lets it be a key of the pool's map. The getters `getTxHash` and
  `getIndex` are the datatype's fields `txHash` and `index`.
 */
module Utxos {

  /** A Java `byte`: a signed 8-bit value. */
  type Byte = b: int | -128 <= b < 128

  const TwoTo31: int := 0x8000_0000
  const TwoTo32: int := 0x1_0000_0000

  /** What `equals(Object)` may be handed: null, an identifier, or an object of another class. */
  datatype Other = NullRef | UtxoObject(utxo: Utxo) | OtherObject

  datatype Utxo = Utxo(txHash: seq<Byte>, index: int)
  {
    /** `equals`: false for null and for other classes, otherwise index, length and every byte agree. */
    method Equals(other: Other) returns (r: bool)
      ensures r <==> other.UtxoObject? && SameUtxo(this, other.utxo)
      ensures r <==> other == UtxoObject(this)
    {
      if other.NullRef? {
        return false;
      }
      if !other.UtxoObject? {
        return false;
      }
      var hash := other.utxo.txHash;
      var otherIndex := other.utxo.index;
      if |hash| != |txHash| || index != otherIndex {
        return false;
      }
      for i := 0 to |hash|
        invariant forall j :: 0 <= j < i ==> hash[j] == txHash[j]
      {
        if hash[i] != txHash[i] {
          return false;
        }
      }
      SameUtxoIsEquality(this, other.utxo);
      return true;
    }

    /** `hashCode`: 17 times 1 plus the index, times 31 plus `Arrays.hashCode` of the hash, in 32-bit arithmetic. */
    function HashCode(): (h: int)
      ensures -TwoTo31 <= h < TwoTo31
    {
      Wrap32(Wrap32(1 * 17 + index) * 31 + ArraysHashCode(txHash))
    }

    /** `compareTo`: a negative, zero or positive result as this identifier sorts before, with or after `other`. */
    method CompareTo(other: Utxo) returns (r: int)
      ensures r == Compare(this, other)
    {
      var hash := other.txHash;
      var otherIndex := other.index;
      if otherIndex > index {
        return -1;
      } else if otherIndex < index {
        return 1;
      }
      var len1 := |txHash|;
      var len2 := |hash|;
      if len2 > len1 {
        return -1;
      } else if len2 < len1 {
        return 1;
      }
      for i := 0 to len1
        invariant CompareFrom(txHash, hash, i) == CompareFrom(txHash, hash, 0)
      {
        if hash[i] > txHash[i] {
          return -1;
        } else if hash[i] < txHash[i] {
          return 1;
        }
      }
      return 0;
    }
  }

  /** The constructor: the identifier holds a copy of the caller's array as it is at the time of the call. */
  method NewUtxo(txHash: array<Byte>, index: int) returns (u: Utxo)
    ensures u.txHash == txHash[..] && u.index == index
  {
    u := Utxo(txHash[..], index);
  }

  /** A caller that writes into its array after constructing an identifier does not change the identifier. */
  method WriteAfterConstruction(txHash: array<Byte>, index: int, k: nat, b: Byte) returns (u: Utxo)
    requires k < txHash.Length
    modifies txHash
    ensures txHash[..] == old(txHash[..])[k := b]
    ensures u.txHash == old(txHash[..]) && u.index == index
  {
    u := NewUtxo(txHash, index);
    txHash[k] := b;
  }

  // ---------------------------------------------------------------------
  // Equality

  /** Byte-wise equality, as `equals` decides it for two identifiers. */
  predicate SameUtxo(a: Utxo, b: Utxo)
  {
    && a.index == b.index
    && |a.txHash| == |b.txHash|
    && forall i :: 0 <= i < |a.txHash| ==> a.txHash[i] == b.txHash[i]
  }

  lemma SameUtxoIsEquality(a: Utxo, b: Utxo)
    ensures SameUtxo(a, b) <==> a == b
  {
    if SameUtxo(a, b) {
      assert a.txHash == b.txHash;
    }
  }

  lemma SameUtxoIsEquivalence(a: Utxo, b: Utxo, c: Utxo)
    ensures SameUtxo(a, a)
    ensures SameUtxo(a, b) ==> SameUtxo(b, a)
    ensures SameUtxo(a, b) && SameUtxo(b, c) ==> SameUtxo(a, c)
  {
  }

  // ---------------------------------------------------------------------
  // Hash code

  /** Java's `int` overflow: the value in [-2^31, 2^31) congruent to `x` modulo 2^32. */
  function Wrap32(x: int): (r: int)
    ensures -TwoTo31 <= r < TwoTo31
    ensures (x - r) % TwoTo32 == 0
  {
    (x + TwoTo31) % TwoTo32 - TwoTo31
  }

  /** `Arrays.hashCode(byte[])`: start from 1 and fold each byte in as `31 * h + b`, in 32-bit arithmetic. */
  function ArraysHashCode(a: seq<Byte>): (h: int)
    ensures -TwoTo31 <= h < TwoTo31
  {
    if |a| == 0 then 1 else Wrap32(31 * ArraysHashCode(a[..|a| - 1]) + a[|a| - 1])
  }

  /** Identifiers that `equals` calls equal have equal hash codes. */
  lemma HashCodeConsistent(a: Utxo, b: Utxo)
    requires SameUtxo(a, b)
    ensures a.HashCode() == b.HashCode()
  {
    SameUtxoIsEquality(a, b);
  }

  // ---------------------------------------------------------------------
  // Ordering

  /** The byte loop of `compareTo` from position `i` on; `mine` is this identifier's hash. */
  function CompareFrom(mine: seq<Byte>, theirs: seq<Byte>, i: nat): (r: int)
    requires |mine| == |theirs| && i <= |mine|
    ensures -1 <= r <= 1
    decreases |mine| - i
  {
    if i == |mine| then 0
    else if theirs[i] > mine[i] then -1
    else if theirs[i] < mine[i] then 1
    else CompareFrom(mine, theirs, i + 1)
  }

  /** `a.compareTo(b)`. */
  function Compare(a: Utxo, b: Utxo): (r: int)
    ensures -1 <= r <= 1
  {
    if b.index > a.index then -1
    else if b.index < a.index then 1
    else if |b.txHash| > |a.txHash| then -1
    else if |b.txHash| < |a.txHash| then 1
    else CompareFrom(a.txHash, b.txHash, 0)
  }

  /** `x` has a smaller signed byte than `y` at the first position, from `i` on, where they differ. */
  ghost predicate LexLessFrom(x: seq<Byte>, y: seq<Byte>, i: nat)
    requires |x| == |y| && i <= |x|
  {
    exists k :: i <= k < |x| && x[i..k] == y[i..k] && x[k] < y[k]
  }

  /** The intended order: by index, then by hash length, then by the first differing byte. */
  ghost predicate Precedes(a: Utxo, b: Utxo)
  {
    || a.index < b.index
    || (a.index == b.index && |a.txHash| < |b.txHash|)
    || (a.index == b.index && |a.txHash| == |b.txHash| && LexLessFrom(a.txHash, b.txHash, 0))
  }

  lemma {:induction false} CompareFromZero(x: seq<Byte>, y: seq<Byte>, i: nat)
    requires |x| == |y| && i <= |x|
    ensures CompareFrom(x, y, i) == 0 <==> x[i..] == y[i..]
    decreases |x| - i
  {
    if i < |x| {
      CompareFromZero(x, y, i + 1);
      if x[i] == y[i] {
        assert x[i..] == [x[i]] + x[i + 1..];
        assert y[i..] == [y[i]] + y[i + 1..];
      } else {
        assert x[i..][0] != y[i..][0];
      }
    }
  }

  lemma {:induction false} CompareFromLess(x: seq<Byte>, y: seq<Byte>, i: nat)
    requires |x| == |y| && i <= |x|
    ensures CompareFrom(x, y, i) == -1 <==> LexLessFrom(x, y, i)
    decreases |x| - i
  {
    if i < |x| {
      CompareFromLess(x, y, i + 1);
      if x[i] < y[i] {
        assert x[i..i] == y[i..i];
      } else if x[i] == y[i] {
        if LexLessFrom(x, y, i) {
          var k :| i <= k < |x| && x[i..k] == y[i..k] && x[k] < y[k];
          assert k != i;
          assert x[i + 1..k] == x[i..k][1..];
          assert y[i + 1..k] == y[i..k][1..];
        }
        if LexLessFrom(x, y, i + 1) {
          var k :| i + 1 <= k < |x| && x[i + 1..k] == y[i + 1..k] && x[k] < y[k];
          assert x[i..k] == [x[i]] + x[i + 1..k];
          assert y[i..k] == [y[i]] + y[i + 1..k];
        }
      }
    }
  }

  lemma {:induction false} CompareFromAntisymmetric(x: seq<Byte>, y: seq<Byte>, i: nat)
    requires |x| == |y| && i <= |x|
    ensures CompareFrom(x, y, i) == -CompareFrom(y, x, i)
    decreases |x| - i
  {
    if i < |x| {
      CompareFromAntisymmetric(x, y, i + 1);
    }
  }

  lemma {:induction false} CompareFromTransitive(x: seq<Byte>, y: seq<Byte>, z: seq<Byte>, i: nat)
    requires |x| == |y| == |z| && i <= |x|
    requires CompareFrom(x, y, i) == -1 && CompareFrom(y, z, i) == -1
    ensures CompareFrom(x, z, i) == -1
    decreases |x| - i
  {
    if x[i] == y[i] && y[i] == z[i] {
      CompareFromTransitive(x, y, z, i + 1);
    } else if x[i] == y[i] {
      assert y[i] < z[i];
    } else if y[i] == z[i] {
      assert x[i] < y[i];
    }
  }

  /** `compareTo` returns -1 exactly when `a` precedes `b`, 1 exactly when `b` precedes `a`. */
  lemma CompareMeaning(a: Utxo, b: Utxo)
    ensures Compare(a, b) == -1 <==> Precedes(a, b)
    ensures Compare(a, b) == 1 <==> Precedes(b, a)
  {
    if a.index == b.index && |a.txHash| == |b.txHash| {
      CompareFromLess(a.txHash, b.txHash, 0);
      CompareFromLess(b.txHash, a.txHash, 0);
      CompareFromAntisymmetric(a.txHash, b.txHash, 0);
    }
  }

  /** `compareTo` returns 0 exactly when `equals` returns true. */
  lemma CompareZeroIffSame(a: Utxo, b: Utxo)
    ensures Compare(a, b) == 0 <==> SameUtxo(a, b)
  {
    SameUtxoIsEquality(a, b);
    if a.index == b.index && |a.txHash| == |b.txHash| {
      CompareFromZero(a.txHash, b.txHash, 0);
      assert a.txHash[0..] == a.txHash && b.txHash[0..] == b.txHash;
    }
  }

  /** Swapping the arguments of `compareTo` negates the result. */
  lemma CompareAntisymmetric(a: Utxo, b: Utxo)
    ensures Compare(a, b) == -Compare(b, a)
  {
    if a.index == b.index && |a.txHash| == |b.txHash| {
      CompareFromAntisymmetric(a.txHash, b.txHash, 0);
    }
  }

  /** `compareTo` is transitive, both strictly and weakly. */
  lemma CompareTransitive(a: Utxo, b: Utxo, c: Utxo)
    ensures Compare(a, b) < 0 && Compare(b, c) < 0 ==> Compare(a, c) < 0
    ensures Compare(a, b) <= 0 && Compare(b, c) <= 0 ==> Compare(a, c) <= 0
  {
    CompareZeroIffSame(a, b);
    CompareZeroIffSame(b, c);
    SameUtxoIsEquality(a, b);
    SameUtxoIsEquality(b, c);
    if Compare(a, b) < 0 && Compare(b, c) < 0
      && a.index == b.index == c.index && |a.txHash| == |b.txHash| == |c.txHash| {
      CompareFromTransitive(a.txHash, b.txHash, c.txHash, 0);
    }
  }
}
