/** java.util.Arrays.deepEquals and Arrays.deepHashCode, for arrays whose elements are
    objects that are not themselves arrays (such as GotoTarget[]). */
module JavaArrays {
  import opened JavaLang

  /** The element-wise comparison Arrays.deepEquals makes between two non-null arrays:
      the same length, and each pair of elements at the same index null-safely equal.
      It is equality of the two contents as sequences: order matters, and two distinct
      arrays holding equal elements in the same order compare equal. */
  predicate DeepEqualContents<T(==)>(s: seq<Option<T>>, t: seq<Option<T>>)
    ensures DeepEqualContents(s, t) <==> s == t
  {
    |s| == |t| && forall i :: 0 <= i < |s| ==> NullSafeEquals(s[i], t[i])
  }

  /** The value each element contributes to Arrays.deepHashCode: 0 for null. */
  function ElementHashes<T>(s: seq<Option<T>>, hash: Hasher<T>): (hs: seq<Int32>)
    ensures |hs| == |s|
  {
    seq(|s|, i requires 0 <= i < |s| => NullSafeHash(s[i], hash))
  }

  /** Arrays.deepHashCode of a non-null array with contents s: in closed form 31^n + sum of
      element hash i * 31^(n-1-i), truncated to 32 bits, with 0 for each null element. */
  function DeepHashCodeOf<T>(s: seq<Option<T>>, hash: Hasher<T>): (r: Int32)
    ensures r == (Pow(PRIME, |s|) + WeightedSum(ElementHashes(s, hash))) % TWO_TO_THE_32
  {
    PolyHashClosedForm(ElementHashes(s, hash));
    PolyHash(ElementHashes(s, hash))
  }

  /** Contents that Arrays.deepEquals accepts have the same Arrays.deepHashCode. */
  lemma DeepHashCodeRespectsDeepEquals<T>(s: seq<Option<T>>, t: seq<Option<T>>, hash: Hasher<T>)
    requires DeepEqualContents(s, t)
    ensures DeepHashCodeOf(s, hash) == DeepHashCodeOf(t, hash)
  {
  }

  /** An empty array hashes to 1, distinct from the 0 of a null array. */
  lemma DeepHashCodeOfEmpty<T>(hash: Hasher<T>)
    ensures DeepHashCodeOf([], hash) == 1
  {
    assert ElementHashes([], hash) == [];
  }

  /** Arrays.deepEquals(a1, a2): true for the same array or two nulls, false when exactly one
      is null or the lengths differ, otherwise a scan that stops at the first pair of
      elements that are not null-safely equal. */
  method DeepEquals<T(==)>(a1: array?<Option<T>>, a2: array?<Option<T>>) returns (eq: bool)
    ensures eq <==> (a1 == null && a2 == null) || (a1 != null && a2 != null && a1[..] == a2[..])
  {
    if a1 == a2 {
      return true;
    }
    if a1 == null || a2 == null {
      return false;
    }
    var length := a1.Length;
    if a2.Length != length {
      return false;
    }
    var i := 0;
    while i < length
      invariant 0 <= i <= length
      invariant a1[..i] == a2[..i]
    {
      var e1, e2 := a1[i], a2[i];
      if e1 != e2 {
        match e1
        case None =>
          return false;
        case Some(x) =>
          if !(e2.Some? && x == e2.value) {
            return false;
          }
      }
      assert a1[..i + 1] == a1[..i] + [e1] && a2[..i + 1] == a2[..i] + [e2];
      i := i + 1;
    }
    assert a1[..] == a1[..length] && a2[..] == a2[..length];
    return true;
  }

  /** Arrays.deepHashCode(a): 0 for a null array, otherwise 31-polynomial accumulation
      starting at 1, with 0 for each null element. */
  method DeepHashCode<T>(a: array?<Option<T>>, hash: Hasher<T>) returns (result: Int32)
    ensures a == null ==> result == 0
    ensures a != null ==> result == DeepHashCodeOf(a[..], hash)
  {
    if a == null {
      return 0;
    }
    result := 1;
    var i := 0;
    while i < a.Length
      invariant 0 <= i <= a.Length
      invariant result == PolyHash(ElementHashes(a[..i], hash))
    {
      var elementHash := match a[i] case None => 0 case Some(e) => hash(e);
      assert ElementHashes(a[..i + 1], hash)[..i] == ElementHashes(a[..i], hash);
      result := Wrap(PRIME * result + elementHash);
      i := i + 1;
    }
    assert a[..] == a[..a.Length];
  }
}
