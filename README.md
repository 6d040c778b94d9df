# Equality and hashing of lsp4j protocol messages

lsp4j is the Java binding of the Language Server Protocol and the Debug Adapter Protocol. Each
protocol message is a generated class: a mutable record of nullable fields with getters,
setters, and hand-expanded `equals` and `hashCode`. This project models three such classes
and proves the contract they share:

- `EvaluateResponse` (debug adapter): six fields. `result` and `variablesReference` are
  annotated `@NonNull`. `type`, `presentationHint`, `namedVariables` and `indexedVariables`
  are optional.
- `DidChangeConfigurationParams` (language server): one `@NonNull` field, `settings`. It holds
  client-defined JSON that the class never inspects.
- `GotoTargetsResponse` (debug adapter): one `@NonNull` field. It is a reference to a
  `GotoTarget[]` array, compared and hashed through `Arrays.deepEquals` and
  `Arrays.deepHashCode`.

How Java is rendered:

- A null reference is `None` of `JavaLang.Option`. A field holding a value is `Some`.
- A Java `int` hash is `JavaLang.Int32`, its 32 bits read as an unsigned number. Every
  `31 * result + h` wraps modulo 2^32 (`JavaLang.Step`).
- `String` is a sequence of UTF-16 code units (`JavaLang.Str`). `Long` is a 64-bit integer
  subset type.
- `VariablePresentationHint` and `GotoTarget` are abstract types; their `equals` is `==`.
  The `settings` value is a `Json.Json` datatype. Objects are maps there, so key order is
  irrelevant, and arrays are positional.
- The `hashCode` of these field types is a parameter (`JavaLang.Hasher`). Their internals
  are not part of this model. A Dafny function gives equal results on equal arguments, so
  every such parameter respects `equals`. All hash results here hold for every choice.
- `equals(Object)` is `Equals(obj: object?)`. `obj is C` is the `getClass()` test: a Dafny
  class has no subclasses, and `null is C` is false.
- Each class is a Dafny `class`. Its fields are `var`s and its getters are `reads this`
  functions. Its setters are methods that `modify this` and state the whole new state.
  `Valid()` states the `@NonNull` annotations; the setters do not enforce them.
- The generated `hashCode` and `Arrays.deepHashCode` share one fold, `JavaLang.PolyHash`:
  start at 1, then apply `result = 31 * result + h` per value, with 0 for null.
  `JavaArrays.DeepEquals` and `JavaArrays.DeepHashCode` model the JDK loops on arrays.
  `GotoTargetsResponse.IsEqualTo` and `GotoTargetsResponse.HashCode` run them.

Nothing in these classes rejects a null required field: their constructors and setters
accept null. Required-ness is therefore the `Valid()` predicate and never a precondition.
The constructor and setter contracts state when an object is `Valid()`.

## Model

| member | source | states |
|---|---|---|
| JavaLang.NullSafeEquals | org.eclipse.lsp4j.debug/src/main/xtend-gen/org/eclipse/lsp4j/debug/EvaluateResponse.java:206-210 | The generated null-safe comparison of one field holds exactly when both references are null or both hold equal values. |
| JavaLang.NullSafeHash | org.eclipse.lsp4j.debug/src/main/xtend-gen/org/eclipse/lsp4j/debug/EvaluateResponse.java:244 | A null field contributes 0 to the hash. |
| JavaLang.PolyHash | org.eclipse.lsp4j.debug/src/main/xtend-gen/org/eclipse/lsp4j/debug/EvaluateResponse.java:242-250 | The fold starts at 1, so a class with no fields would hash to 1. Each further value is one `result = 31 * result + h` statement in 32-bit arithmetic. |
| JavaLang.PolyHashIsTruncatedPolynomial | org.eclipse.lsp4j.debug/src/main/xtend-gen/org/eclipse/lsp4j/debug/EvaluateResponse.java:242-250 | Folding `31 * result + h` from 1 with a 32-bit wrap at every step equals the same fold on unbounded integers, truncated to 32 bits once. Overflow partway through loses nothing more. |
| JavaLang.ExactPolynomialClosedForm | org.eclipse.lsp4j.debug/src/main/xtend-gen/org/eclipse/lsp4j/debug/EvaluateResponse.java:242-250 | The fold on unbounded integers equals the polynomial 31^n + sum of h_i * 31^(n-1-i), written as an explicit sum. |
| JavaLang.PolyHashClosedForm | org.eclipse.lsp4j.debug/src/main/xtend-gen/org/eclipse/lsp4j/debug/EvaluateResponse.java:242-250 | The 32-bit hash fold equals 31^n + sum of h_i * 31^(n-1-i), truncated to 32 bits. |
| JavaLang.PolyHashOfZeros | org.eclipse.lsp4j.debug/src/main/xtend-gen/org/eclipse/lsp4j/debug/EvaluateResponse.java:242-250 | Folding n null fields gives 31^n mod 2^32. |
| JavaLang.PolyHashOfOne | org.eclipse.lsp4j/src/main/xtend-gen/org/eclipse/lsp4j/DidChangeConfigurationParams.java:80-83 | A one-field hashCode is 31 + h, wrapped to 32 bits. |
| JavaArrays.DeepEqualContents | org.eclipse.lsp4j.debug/src/main/xtend-gen/org/eclipse/lsp4j/debug/GotoTargetsResponse.java:64 | The element-wise comparison (same length, each pair of elements null-safely equal, index by index) holds exactly when the two contents are equal sequences. |
| JavaArrays.DeepEquals | org.eclipse.lsp4j.debug/src/main/xtend-gen/org/eclipse/lsp4j/debug/GotoTargetsResponse.java:64 | The deepEquals loop returns true exactly when both arrays are null, or both are non-null with equal contents in the same order. |
| JavaArrays.DeepHashCodeOf | org.eclipse.lsp4j.debug/src/main/xtend-gen/org/eclipse/lsp4j/debug/GotoTargetsResponse.java:74 | Arrays.deepHashCode of a non-null array equals 31^n + sum of element hash i * 31^(n-1-i), truncated to 32 bits, with 0 for null elements. |
| JavaArrays.DeepHashCode | org.eclipse.lsp4j.debug/src/main/xtend-gen/org/eclipse/lsp4j/debug/GotoTargetsResponse.java:74 | The deepHashCode loop returns 0 for a null array. Otherwise it returns the 31-polynomial fold of the element hashes, with 0 for null elements. |
| JavaArrays.DeepHashCodeRespectsDeepEquals | org.eclipse.lsp4j.debug/src/main/xtend-gen/org/eclipse/lsp4j/debug/GotoTargetsResponse.java:64-74 | Contents that deepEquals accepts have the same deepHashCode. |
| JavaArrays.DeepHashCodeOfEmpty | org.eclipse.lsp4j.debug/src/main/xtend-gen/org/eclipse/lsp4j/debug/GotoTargetsResponse.java:74 | An empty array hashes to 1, unlike the 0 of a null array. |
| Json.ArrayOrderMatters | org.eclipse.lsp4j/src/main/xtend-gen/org/eclipse/lsp4j/DidChangeConfigurationParams.java:72 | In the model of the settings value, arrays compare positionally: two different elements in swapped order give a different value. |
| Json.ObjectKeyOrderIrrelevant | org.eclipse.lsp4j/src/main/xtend-gen/org/eclipse/lsp4j/DidChangeConfigurationParams.java:72 | In the model of the settings value, objects with the same members are equal whatever order the keys were added in. |
| Evaluate.EvaluateResponse.constructor | org.eclipse.lsp4j.debug/src/main/xtend-gen/org/eclipse/lsp4j/debug/EvaluateResponse.java:19-63 | The implicit constructor leaves all six fields null, so the result is not `Valid()`. |
| Evaluate.EvaluateResponse.SetResult | org.eclipse.lsp4j.debug/src/main/xtend-gen/org/eclipse/lsp4j/debug/EvaluateResponse.java:68-79 | `getResult` then returns the value just set, null included. The other five fields are unchanged. The object is `Valid()` exactly when both `result` and `variablesReference` are now set. |
| Evaluate.EvaluateResponse.SetType | org.eclipse.lsp4j.debug/src/main/xtend-gen/org/eclipse/lsp4j/debug/EvaluateResponse.java:86-98 | `getType` then returns the value just set. The other five fields are unchanged. |
| Evaluate.EvaluateResponse.SetPresentationHint | org.eclipse.lsp4j.debug/src/main/xtend-gen/org/eclipse/lsp4j/debug/EvaluateResponse.java:105-117 | `getPresentationHint` then returns the value just set. The other five fields are unchanged. |
| Evaluate.EvaluateResponse.SetVariablesReference | org.eclipse.lsp4j.debug/src/main/xtend-gen/org/eclipse/lsp4j/debug/EvaluateResponse.java:123-135 | `getVariablesReference` then returns the value just set, null included. The other five fields are unchanged. The object is `Valid()` exactly when both `result` and `variablesReference` are now set. |
| Evaluate.EvaluateResponse.SetNamedVariables | org.eclipse.lsp4j.debug/src/main/xtend-gen/org/eclipse/lsp4j/debug/EvaluateResponse.java:144-158 | `getNamedVariables` then returns the value just set. Setting null reads back as absent. The other five fields are unchanged. |
| Evaluate.EvaluateResponse.SetIndexedVariables | org.eclipse.lsp4j.debug/src/main/xtend-gen/org/eclipse/lsp4j/debug/EvaluateResponse.java:167-181 | `getIndexedVariables` then returns the value just set. The other five fields are unchanged. |
| Evaluate.EvaluateResponse.Equals | org.eclipse.lsp4j.debug/src/main/xtend-gen/org/eclipse/lsp4j/debug/EvaluateResponse.java:196-237 | equals is false against null and against another class. Against an EvaluateResponse it holds exactly when all six field values are pairwise equal, null matching only null. |
| Evaluate.EvaluateResponse.HashCode | org.eclipse.lsp4j.debug/src/main/xtend-gen/org/eclipse/lsp4j/debug/EvaluateResponse.java:239-251 | The six wrapping statements compute the 31-polynomial fold of the field hashes, in declaration order, with 0 for null fields. |
| Evaluate.EqualsReflexive | org.eclipse.lsp4j.debug/src/main/xtend-gen/org/eclipse/lsp4j/debug/EvaluateResponse.java:199-200 | Every instance equals itself. |
| Evaluate.EqualsSymmetric | org.eclipse.lsp4j.debug/src/main/xtend-gen/org/eclipse/lsp4j/debug/EvaluateResponse.java:206-236 | equals gives the same answer with its operands swapped. |
| Evaluate.EqualsImpliesSameHash | org.eclipse.lsp4j.debug/src/main/xtend-gen/org/eclipse/lsp4j/debug/EvaluateResponse.java:196-251 | An object equal to an EvaluateResponse is an EvaluateResponse. It has the same hashCode under every choice of field-type hash functions. |
| Evaluate.EvaluateResponse.Hash | org.eclipse.lsp4j.debug/src/main/xtend-gen/org/eclipse/lsp4j/debug/EvaluateResponse.java:241-251 | hashCode equals 31^6 + sum of field hash i * 31^(5-i), truncated to 32 bits. The fields are taken in declaration order, with 0 for null fields. |
| Evaluate.HashOfAllNull | org.eclipse.lsp4j.debug/src/main/xtend-gen/org/eclipse/lsp4j/debug/EvaluateResponse.java:242-250 | With every field null, the hashCode is 31^6 mod 2^32 = 887503681. |
| Configuration.DidChangeConfigurationParams.constructor | org.eclipse.lsp4j/src/main/xtend-gen/org/eclipse/lsp4j/DidChangeConfigurationParams.java:28-29 | The no-argument constructor leaves settings null, so the result is not `Valid()`. |
| Configuration.DidChangeConfigurationParams.WithSettings | org.eclipse.lsp4j/src/main/xtend-gen/org/eclipse/lsp4j/DidChangeConfigurationParams.java:31-42 | The one-argument constructor stores its argument, and `getSettings` returns it unchanged. The result is `Valid()` exactly when the argument is not null. |
| Configuration.DidChangeConfigurationParams.SetSettings | org.eclipse.lsp4j/src/main/xtend-gen/org/eclipse/lsp4j/DidChangeConfigurationParams.java:38-49 | `setSettings` replaces the stored value, and `getSettings` returns the new one. The object is `Valid()` exactly when the new value is not null. |
| Configuration.DidChangeConfigurationParams.Equals | org.eclipse.lsp4j/src/main/xtend-gen/org/eclipse/lsp4j/DidChangeConfigurationParams.java:59-75 | equals is false against null and against another class. Against the same class it holds exactly when both settings are null, or both are present and equal. |
| Configuration.DidChangeConfigurationParams.Hash | org.eclipse.lsp4j/src/main/xtend-gen/org/eclipse/lsp4j/DidChangeConfigurationParams.java:77-84 | hashCode is 31 when settings are null. Otherwise it is 31 + the settings' hash, wrapped to 32 bits. |
| Configuration.EqualsReflexive | org.eclipse.lsp4j/src/main/xtend-gen/org/eclipse/lsp4j/DidChangeConfigurationParams.java:62-63 | Every instance equals itself. |
| Configuration.EqualsSymmetric | org.eclipse.lsp4j/src/main/xtend-gen/org/eclipse/lsp4j/DidChangeConfigurationParams.java:69-74 | equals gives the same answer with its operands swapped. |
| Configuration.EqualsImpliesSameHash | org.eclipse.lsp4j/src/main/xtend-gen/org/eclipse/lsp4j/DidChangeConfigurationParams.java:59-84 | An object equal to a DidChangeConfigurationParams is one, with the same hashCode under every settings hash function. |
| Configuration.SettingsKeyOrderIrrelevant | org.eclipse.lsp4j/src/main/xtend-gen/org/eclipse/lsp4j/DidChangeConfigurationParams.java:69-83 | Two notifications whose settings objects have the same members, added in different orders, are equal and hash alike. |
| GotoTargets.GotoTargetsResponse.constructor | org.eclipse.lsp4j.debug/src/main/xtend-gen/org/eclipse/lsp4j/debug/GotoTargetsResponse.java:20-25 | The implicit constructor leaves targets null, so the result is not `Valid()`. |
| GotoTargets.GotoTargetsResponse.SetTargets | org.eclipse.lsp4j.debug/src/main/xtend-gen/org/eclipse/lsp4j/debug/GotoTargetsResponse.java:30-41 | `setTargets` stores the array reference itself, not a copy, and `getTargets` returns that same array. Its elements are unchanged. The object is `Valid()` exactly when the array is not null. |
| GotoTargets.GotoTargetsResponse.Equals | org.eclipse.lsp4j.debug/src/main/xtend-gen/org/eclipse/lsp4j/debug/GotoTargetsResponse.java:51-67 | equals is false against null and against another class. Against the same class it holds exactly when both targets are null, or both are arrays with equal elements in the same order. |
| GotoTargets.GotoTargetsResponse.Hash | org.eclipse.lsp4j.debug/src/main/xtend-gen/org/eclipse/lsp4j/debug/GotoTargetsResponse.java:69-76 | hashCode is 31 when targets are null. Otherwise it is 31 + Arrays.deepHashCode(targets), wrapped to 32 bits. |
| GotoTargets.GotoTargetsResponse.HashCode | org.eclipse.lsp4j.debug/src/main/xtend-gen/org/eclipse/lsp4j/debug/GotoTargetsResponse.java:71-76 | Running deepHashCode over the array and then one fold step gives that hashCode. |
| GotoTargets.GotoTargetsResponse.IsEqualTo | org.eclipse.lsp4j.debug/src/main/xtend-gen/org/eclipse/lsp4j/debug/GotoTargetsResponse.java:53-67 | Running the equals checks, with the deepEquals loop over the arrays, gives the answer that Equals describes. |
| GotoTargets.EqualsReflexive | org.eclipse.lsp4j.debug/src/main/xtend-gen/org/eclipse/lsp4j/debug/GotoTargetsResponse.java:54-55 | Every instance equals itself. |
| GotoTargets.EqualsSymmetric | org.eclipse.lsp4j.debug/src/main/xtend-gen/org/eclipse/lsp4j/debug/GotoTargetsResponse.java:61-65 | equals gives the same answer with its operands swapped. |
| GotoTargets.EqualsImpliesSameHash | org.eclipse.lsp4j.debug/src/main/xtend-gen/org/eclipse/lsp4j/debug/GotoTargetsResponse.java:51-76 | An object equal to a GotoTargetsResponse is one, with the same hashCode under every GotoTarget hash function. |
| GotoTargets.DistinctArraysWithSameElementsAreEqual | org.eclipse.lsp4j.debug/src/main/xtend-gen/org/eclipse/lsp4j/debug/GotoTargetsResponse.java:64 | Two distinct arrays holding equal elements in the same order make the responses equal, so equality is not identity. |
| GotoTargets.ReorderedTargetsAreNotEqual | org.eclipse.lsp4j.debug/src/main/xtend-gen/org/eclipse/lsp4j/debug/GotoTargetsResponse.java:64 | Two different targets in swapped order make the responses unequal. |
| GotoTargets.EmptyTargetsAreNotNullTargets | org.eclipse.lsp4j.debug/src/main/xtend-gen/org/eclipse/lsp4j/debug/GotoTargetsResponse.java:61-75 | An empty array differs from null targets both ways. Its response hashes to 32, while null targets hash to 31. |

The getters (`GetResult` through `GetIndexedVariables`, `GetSettings`, `GetTargets`) are
field reads with no contract of their own. The setter and constructor rows above state what
they return. The `Valid()` predicates restate the `@NonNull` annotations
(EvaluateResponse.java:23 and :44, DidChangeConfigurationParams.java:24,
GotoTargetsResponse.java:24).

## Left out

- `toString` through Xtext's `ToStringBuilder`: diagnostic text with no stated contract.
- JSON serialisation and deserialisation through Gson, including the `@JsonAdapter` on
  `settings`. Omitting unset fields on the wire and round-tripping messages happen in that
  library, which is not part of this model.
- Runtime `@NonNull` validation by the lsp4j JSON-RPC validator is not part of this model.
  The annotations appear only as `Valid()`. Nothing rejects a null required field.
- The internals of `VariablePresentationHint` and `GotoTarget`, and the `hashCode` of
  `String`, `Long`, those two classes and the settings value. Each is a hash-function
  parameter, and equality on those types is `==`.
- `Json.JNumber` holds an exact rational, and its equality is exact. Gson compares
  non-integral numbers through `double`, so two numbers that round to the same `double`
  are equal in Java and unequal in the model.
- `settings` is declared `Object` in Java. The model restricts it to JSON values, which is
  what the Gson adapter produces.
- `VariablePresentationHint`, `GotoTarget` and the settings value are mutable objects in
  Java. They are values here, so aliasing of those nested objects is not captured. Aliasing
  of the `targets` array is captured.
- `Arrays.deepEquals` checks reference identity of each element pair before calling
  `equals`. The model uses value equality for that check, which gives the same answer.
- Thread safety: the classes have no synchronisation, and the model is sequential.
