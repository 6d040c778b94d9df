/** org.eclipse.lsp4j.debug.EvaluateResponse: the response to the debug adapter's 'evaluate'
    request, a mutable record of six nullable fields with generated equals and hashCode. */
module Evaluate {
  import opened JavaLang

  /** org.eclipse.lsp4j.debug.VariablePresentationHint, whose fields are not part of this
      model; its equals is `==`. */
  type VariablePresentationHint(==)

  /** The six field values of an EvaluateResponse, in declaration order. */
  datatype EvaluateResponseValue = EvaluateResponseValue(
    result: Option<Str>,
    resultType: Option<Str>,
    presentationHint: Option<VariablePresentationHint>,
    variablesReference: Option<Long>,
    namedVariables: Option<Long>,
    indexedVariables: Option<Long>)

  /** Every field null. */
  const ALL_NULL := EvaluateResponseValue(None, None, None, None, None, None)

  /** The hashCode methods of the field types: String, VariablePresentationHint and Long. */
  datatype FieldHashers = FieldHashers(
    str: Hasher<Str>,
    hint: Hasher<VariablePresentationHint>,
    long: Hasher<Long>)

  class EvaluateResponse {
    /** The result of the evaluate request; @NonNull. */
    var result: Option<Str>
    /** The optional type of the result (the field named `type`). */
    var resultType: Option<Str>
    /** Optional rendering hints for the result. */
    var presentationHint: Option<VariablePresentationHint>
    /** Handle for the children of a structured result; @NonNull. */
    var variablesReference: Option<Long>
    /** Optional number of named child variables. */
    var namedVariables: Option<Long>
    /** Optional number of indexed child variables. */
    var indexedVariables: Option<Long>

    /** The implicit no-argument constructor: every field null. */
    constructor ()
      ensures Value() == ALL_NULL
      ensures !Valid()
    {
      result, resultType, presentationHint := None, None, None;
      variablesReference, namedVariables, indexedVariables := None, None, None;
    }

    /** The current field values. */
    function Value(): EvaluateResponseValue
      reads this
    {
      EvaluateResponseValue(result, resultType, presentationHint,
                            variablesReference, namedVariables, indexedVariables)
    }

    /** The two fields annotated @NonNull hold values. The setters do not enforce this. */
    predicate Valid()
      reads this
    {
      result.Some? && variablesReference.Some?
    }

    function GetResult(): Option<Str> reads this { result }
    function GetType(): Option<Str> reads this { resultType }
    function GetPresentationHint(): Option<VariablePresentationHint> reads this { presentationHint }
    function GetVariablesReference(): Option<Long> reads this { variablesReference }
    function GetNamedVariables(): Option<Long> reads this { namedVariables }
    function GetIndexedVariables(): Option<Long> reads this { indexedVariables }

    method SetResult(result: Option<Str>)
      modifies this
      ensures GetResult() == result
      ensures Value() == old(Value()).(result := result)
      ensures Valid() <==> result.Some? && GetVariablesReference().Some?
    {
      this.result := result;
    }

    method SetType(resultType: Option<Str>)
      modifies this
      ensures GetType() == resultType
      ensures Value() == old(Value()).(resultType := resultType)
    {
      this.resultType := resultType;
    }

    method SetPresentationHint(presentationHint: Option<VariablePresentationHint>)
      modifies this
      ensures GetPresentationHint() == presentationHint
      ensures Value() == old(Value()).(presentationHint := presentationHint)
    {
      this.presentationHint := presentationHint;
    }

    method SetVariablesReference(variablesReference: Option<Long>)
      modifies this
      ensures GetVariablesReference() == variablesReference
      ensures Value() == old(Value()).(variablesReference := variablesReference)
      ensures Valid() <==> GetResult().Some? && variablesReference.Some?
    {
      this.variablesReference := variablesReference;
    }

    method SetNamedVariables(namedVariables: Option<Long>)
      modifies this
      ensures GetNamedVariables() == namedVariables
      ensures Value() == old(Value()).(namedVariables := namedVariables)
    {
      this.namedVariables := namedVariables;
    }

    method SetIndexedVariables(indexedVariables: Option<Long>)
      modifies this
      ensures GetIndexedVariables() == indexedVariables
      ensures Value() == old(Value()).(indexedVariables := indexedVariables)
    {
      this.indexedVariables := indexedVariables;
    }

    /** equals(Object): true for the same instance; false for null and for an object of
        another class; otherwise the six fields compared null-safely in declaration order.
        It holds exactly when the other object is an EvaluateResponse with the same six
        field values, null matching only null. */
    predicate Equals(obj: object?)
      reads this, obj
      ensures !(obj is EvaluateResponse) ==> !Equals(obj)
      ensures obj is EvaluateResponse ==>
                (Equals(obj) <==> Value() == (obj as EvaluateResponse).Value())
    {
      if this == obj then true
      else if obj == null then false
      else if !(obj is EvaluateResponse) then false
      else
        var other := obj as EvaluateResponse;
        && NullSafeEquals(result, other.result)
        && NullSafeEquals(resultType, other.resultType)
        && NullSafeEquals(presentationHint, other.presentationHint)
        && NullSafeEquals(variablesReference, other.variablesReference)
        && NullSafeEquals(namedVariables, other.namedVariables)
        && NullSafeEquals(indexedVariables, other.indexedVariables)
    }

    /** What each field adds to hashCode, in declaration order: 0 for null. */
    function FieldHashes(h: FieldHashers): (hs: seq<Int32>)
      reads this
    {
      [ NullSafeHash(result, h.str),
        NullSafeHash(resultType, h.str),
        NullSafeHash(presentationHint, h.hint),
        NullSafeHash(variablesReference, h.long),
        NullSafeHash(namedVariables, h.long),
        NullSafeHash(indexedVariables, h.long) ]
    }

    /** hashCode(): start at 1 and fold each field as `result = 31 * result + h` in int
        arithmetic. In closed form it is 31^6 + sum of field hash i * 31^(5-i), truncated to
        32 bits. */
    function Hash(h: FieldHashers): (r: Int32)
      reads this
      ensures r == (Pow(PRIME, 6) + WeightedSum(FieldHashes(h))) % TWO_TO_THE_32
    {
      PolyHashClosedForm(FieldHashes(h));
      PolyHash(FieldHashes(h))
    }

    /** hashCode() as it runs: six statements `result = prime * result + h`, each wrapping
        to 32 bits. */
    method HashCode(h: FieldHashers) returns (r: Int32)
      ensures r == Hash(h)
    {
      ghost var hs := FieldHashes(h);
      r := 1;
      r := Wrap(PRIME * r + NullSafeHash(result, h.str));
      assert r == PolyHash(hs[..1]) by { assert hs[..1][..0] == []; }
      r := Wrap(PRIME * r + NullSafeHash(resultType, h.str));
      assert r == PolyHash(hs[..2]) by { assert hs[..2][..1] == hs[..1]; }
      r := Wrap(PRIME * r + NullSafeHash(presentationHint, h.hint));
      assert r == PolyHash(hs[..3]) by { assert hs[..3][..2] == hs[..2]; }
      r := Wrap(PRIME * r + NullSafeHash(variablesReference, h.long));
      assert r == PolyHash(hs[..4]) by { assert hs[..4][..3] == hs[..3]; }
      r := Wrap(PRIME * r + NullSafeHash(namedVariables, h.long));
      assert r == PolyHash(hs[..5]) by { assert hs[..5][..4] == hs[..4]; }
      r := Wrap(PRIME * r + NullSafeHash(indexedVariables, h.long));
      assert hs[..6] == hs;
    }
  }

  /** equals is reflexive. */
  lemma EqualsReflexive(a: EvaluateResponse)
    ensures a.Equals(a)
  {
  }

  /** equals gives the same answer with its operands swapped. */
  lemma EqualsSymmetric(a: EvaluateResponse, b: EvaluateResponse)
    ensures a.Equals(b) <==> b.Equals(a)
  {
  }

  /** An object equal to an EvaluateResponse is one, and has the same hashCode, whatever the
      hashCode methods of the field types are. */
  lemma EqualsImpliesSameHash(a: EvaluateResponse, obj: object?, h: FieldHashers)
    requires a.Equals(obj)
    ensures obj is EvaluateResponse
    ensures a.Hash(h) == (obj as EvaluateResponse).Hash(h)
  {
  }

  /** With every field null the hashCode is 31^6 mod 2^32, which is 887503681. */
  lemma HashOfAllNull(a: EvaluateResponse, h: FieldHashers)
    requires a.Value() == ALL_NULL
    ensures a.Hash(h) == Pow(PRIME, 6) % TWO_TO_THE_32 == 887503681
  {
    assert a.FieldHashes(h) == Zeros(6);
    PolyHashOfZeros(6);
  }
}
