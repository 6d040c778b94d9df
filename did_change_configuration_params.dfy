/** org.eclipse.lsp4j.DidChangeConfigurationParams: the parameters of the notification a
    client sends when its configuration settings change. Its one field holds the settings
    as client-defined JSON that the class never inspects. */
module Configuration {
  import opened JavaLang
  import opened Json

  class DidChangeConfigurationParams {
    /** The changed settings; @NonNull. */
    var settings: Option<Json>

    /** The no-argument constructor leaves settings null. */
    constructor ()
      ensures GetSettings() == None
      ensures !Valid()
    {
      settings := None;
    }

    /** The one-argument constructor stores its argument as given (null included, since the
        @NonNull annotation is not enforced). */
    constructor WithSettings(settings: Option<Json>)
      ensures GetSettings() == settings
      ensures Valid() <==> settings.Some?
    {
      this.settings := settings;
    }

    /** The field annotated @NonNull holds a value. */
    predicate Valid()
      reads this
    {
      settings.Some?
    }

    function GetSettings(): Option<Json> reads this { settings }

    method SetSettings(settings: Option<Json>)
      modifies this
      ensures GetSettings() == settings
      ensures Valid() <==> settings.Some?
    {
      this.settings := settings;
    }

    /** equals(Object): true for the same instance; false for null and for an object of
        another class; otherwise the settings compared null-safely. It holds exactly when
        the other object is a DidChangeConfigurationParams whose settings are both null or
        both present and equal. */
    predicate Equals(obj: object?)
      reads this, obj
      ensures !(obj is DidChangeConfigurationParams) ==> !Equals(obj)
      ensures obj is DidChangeConfigurationParams ==>
                (Equals(obj) <==> settings == (obj as DidChangeConfigurationParams).settings)
    {
      if this == obj then true
      else if obj == null then false
      else if !(obj is DidChangeConfigurationParams) then false
      else
        var other := obj as DidChangeConfigurationParams;
        NullSafeEquals(settings, other.settings)
    }

    /** hashCode(): `31 * 1 + h` where h is the settings' hashCode, or 0 when they are null. */
    function Hash(jsonHash: Hasher<Json>): (r: Int32)
      reads this
      ensures settings.None? ==> r == 31
      ensures settings.Some? ==> r == Wrap(31 + jsonHash(settings.value))
    {
      PolyHashOfOne(NullSafeHash(settings, jsonHash));
      PolyHash([NullSafeHash(settings, jsonHash)])
    }
  }

  /** equals is reflexive. */
  lemma EqualsReflexive(p: DidChangeConfigurationParams)
    ensures p.Equals(p)
  {
  }

  /** equals gives the same answer with its operands swapped. */
  lemma EqualsSymmetric(p: DidChangeConfigurationParams, q: DidChangeConfigurationParams)
    ensures p.Equals(q) <==> q.Equals(p)
  {
  }

  /** An object equal to a DidChangeConfigurationParams is one, and has the same hashCode,
      whatever the settings' hashCode is. */
  lemma EqualsImpliesSameHash(p: DidChangeConfigurationParams, obj: object?, jsonHash: Hasher<Json>)
    requires p.Equals(obj)
    ensures obj is DidChangeConfigurationParams
    ensures p.Hash(jsonHash) == (obj as DidChangeConfigurationParams).Hash(jsonHash)
  {
  }

  /** Settings objects with the same members are equal whatever order their keys came in, so
      the two notifications carrying them are equal and hash alike. */
  lemma SettingsKeyOrderIrrelevant(p: DidChangeConfigurationParams, q: DidChangeConfigurationParams,
                                   k1: Str, v1: Json, k2: Str, v2: Json, jsonHash: Hasher<Json>)
    requires k1 != k2
    requires p.settings == Some(JObject(map[k1 := v1][k2 := v2]))
    requires q.settings == Some(JObject(map[k2 := v2][k1 := v1]))
    ensures p.Equals(q) && p.Hash(jsonHash) == q.Hash(jsonHash)
  {
    ObjectKeyOrderIrrelevant(k1, v1, k2, v2);
  }
}
