/** org.eclipse.lsp4j.debug.GotoTargetsResponse: the response to the debug adapter's
    'gotoTargets' request. Its one field is a reference to an array of targets, compared and
    hashed element by element through Arrays.deepEquals and Arrays.deepHashCode. */
module GotoTargets {
  import opened JavaLang
  import JavaArrays

  /** org.eclipse.lsp4j.debug.GotoTarget, whose fields are not part of this model; its equals
      is `==`. */
  type GotoTarget(==)

  class GotoTargetsResponse {
    /** The possible goto targets; @NonNull. A Java array may hold null elements. */
    var targets: array?<Option<GotoTarget>>

    /** The implicit no-argument constructor: targets null. */
    constructor ()
      ensures GetTargets() == null
      ensures !Valid()
    {
      targets := null;
    }

    /** The field annotated @NonNull holds an array (possibly empty). */
    predicate Valid()
      reads this
    {
      targets != null
    }

    /** The getter hands out the stored array itself, not a copy. */
    function GetTargets(): array?<Option<GotoTarget>> reads this { targets }

    /** Stores the given array reference, not a copy; its elements are left as they were. */
    method SetTargets(targets: array?<Option<GotoTarget>>)
      modifies this
      ensures GetTargets() == targets
      ensures targets != null ==> targets[..] == old(targets[..])
      ensures Valid() <==> targets != null
    {
      this.targets := targets;
    }

    /** The contents of targets: None when the array reference is null. */
    function TargetsValue(): Option<seq<Option<GotoTarget>>>
      reads this, targets
    {
      if targets == null then None else Some(targets[..])
    }

    /** equals(Object): true for the same instance; false for null and for an object of
        another class; otherwise null targets match only null targets, and two arrays match
        when Arrays.deepEquals accepts them. It holds exactly when the other object is a
        GotoTargetsResponse whose targets are both null or both arrays with the same
        elements in the same order. */
    predicate Equals(obj: object?)
      reads this, obj, targets
      reads if obj is GotoTargetsResponse then {(obj as GotoTargetsResponse).targets} else {}
      ensures !(obj is GotoTargetsResponse) ==> !Equals(obj)
      ensures obj is GotoTargetsResponse ==>
                (Equals(obj) <==> TargetsValue() == (obj as GotoTargetsResponse).TargetsValue())
    {
      if this == obj then true
      else if obj == null then false
      else if !(obj is GotoTargetsResponse) then false
      else
        var other := obj as GotoTargetsResponse;
        if targets == null then other.targets == null
        else targets == other.targets
             || (other.targets != null && JavaArrays.DeepEqualContents(targets[..], other.targets[..]))
    }

    /** hashCode(): `31 * 1 + h` where h is Arrays.deepHashCode(targets), which is 0 for a
        null array. */
    function Hash(hash: Hasher<GotoTarget>): (r: Int32)
      reads this, targets
      ensures targets == null ==> r == 31
      ensures targets != null ==> r == Wrap(31 + JavaArrays.DeepHashCodeOf(targets[..], hash))
    {
      var h := if targets == null then 0 else JavaArrays.DeepHashCodeOf(targets[..], hash);
      PolyHashOfOne(h);
      PolyHash([h])
    }

    /** hashCode() as it runs: Arrays.deepHashCode walks the array, then one fold step. */
    method HashCode(hash: Hasher<GotoTarget>) returns (r: Int32)
      ensures r == Hash(hash)
    {
      var h := JavaArrays.DeepHashCode(targets, hash);
      r := Wrap(PRIME * 1 + h);
    }

    /** equals(Object) as it runs, with Arrays.deepEquals scanning the two arrays. */
    method IsEqualTo(obj: object?) returns (eq: bool)
      ensures eq == Equals(obj)
    {
      if this == obj {
        return true;
      }
      if obj == null || !(obj is GotoTargetsResponse) {
        return false;
      }
      var other := obj as GotoTargetsResponse;
      if targets == null {
        return other.targets == null;
      }
      eq := JavaArrays.DeepEquals(targets, other.targets);
    }
  }

  /** equals is reflexive. */
  lemma EqualsReflexive(r: GotoTargetsResponse)
    ensures r.Equals(r)
  {
  }

  /** equals gives the same answer with its operands swapped. */
  lemma EqualsSymmetric(r: GotoTargetsResponse, s: GotoTargetsResponse)
    ensures r.Equals(s) <==> s.Equals(r)
  {
  }

  /** An object equal to a GotoTargetsResponse is one, and has the same hashCode, whatever
      GotoTarget's hashCode is. */
  lemma EqualsImpliesSameHash(r: GotoTargetsResponse, obj: object?, hash: Hasher<GotoTarget>)
    requires r.Equals(obj)
    ensures obj is GotoTargetsResponse
    ensures r.Hash(hash) == (obj as GotoTargetsResponse).Hash(hash)
  {
  }

  /** Equality is not identity: two distinct arrays holding equal elements in the same order
      make the responses equal. */
  lemma DistinctArraysWithSameElementsAreEqual(r: GotoTargetsResponse, s: GotoTargetsResponse)
    requires r.targets != null && s.targets != null && r.targets != s.targets
    requires r.targets.Length == s.targets.Length
    requires forall i :: 0 <= i < r.targets.Length ==> r.targets[i] == s.targets[i]
    ensures r.Equals(s)
  {
    assert r.targets[..] == s.targets[..];
  }

  /** Order matters: the same two different targets in swapped order are not equal. */
  lemma ReorderedTargetsAreNotEqual(r: GotoTargetsResponse, s: GotoTargetsResponse, x: GotoTarget, y: GotoTarget)
    requires x != y
    requires r.targets != null && r.targets[..] == [Some(x), Some(y)]
    requires s.targets != null && s.targets[..] == [Some(y), Some(x)]
    ensures !r.Equals(s)
  {
    assert r.targets[..][0] != s.targets[..][0];
  }

  /** An empty array is present, not absent: it is unequal to null targets, and hashes to 32
      where null targets hash to 31. */
  lemma EmptyTargetsAreNotNullTargets(r: GotoTargetsResponse, s: GotoTargetsResponse, hash: Hasher<GotoTarget>)
    requires r.targets != null && r.targets.Length == 0
    requires s.targets == null
    ensures !r.Equals(s) && !s.Equals(r)
    ensures r.Hash(hash) == 32 && s.Hash(hash) == 31
  {
    assert r.targets[..] == [];
    JavaArrays.DeepHashCodeOfEmpty(hash);
  }
}
