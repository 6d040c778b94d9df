/** The parts of java.lang that the generated message classes rely on: null references,
    boxed Long, String, and the 32-bit int arithmetic of hashCode. */
module JavaLang {

  /** A Java reference to a value: None is null. */
  datatype Option<+T> = None | Some(value: T)

  /** Number of distinct Java int values. */
  const TWO_TO_THE_32: int := 0x1_0000_0000

  /** The 32 bits of a Java int, read as an unsigned number. Java's `*` and `+` on int
      keep exactly these bits, so they are arithmetic modulo 2^32. */
  type Int32 = x: int | 0 <= x < 0x1_0000_0000

  /** A boxed java.lang.Long. */
  type Long = x: int | -0x8000_0000_0000_0000 <= x < 0x8000_0000_0000_0000

  /** A UTF-16 code unit, the element of a java.lang.String. */
  type CodeUnit = x: int | 0 <= x < 0x1_0000

  /** A java.lang.String. */
  type Str = seq<CodeUnit>

  /** The hashCode of a type whose hashCode this model does not define. Any Dafny function
      gives equal results on equal arguments, so every Hasher is consistent with `==`. */
  type Hasher<!T> = T -> Int32

  /** The multiplier every generated hashCode and Arrays.deepHashCode use. */
  const PRIME: int := 31

  /** Truncation of an exact integer to a Java int. */
  function Wrap(x: int): (r: Int32)
    ensures (x - r) % TWO_TO_THE_32 == 0
  {
    x % TWO_TO_THE_32
  }

  /** One statement `result = prime * result + h;` in Java int arithmetic. */
  function Step(acc: Int32, h: Int32): Int32 {
    Wrap(PRIME * acc + h)
  }

  /** `x == null ? 0 : x.hashCode()`. */
  function NullSafeHash<T>(x: Option<T>, hash: Hasher<T>): (r: Int32)
    ensures x.None? ==> r == 0
  {
    match x
    case None => 0
    case Some(v) => hash(v)
  }

  /** The generated null-safe comparison of one field:
      `if (a == null) { if (b != null) return false; } else if (!a.equals(b)) return false;`
      where `a.equals(null)` is false and `equals` between non-null values is `==`.
      It is exactly equality of the two references' values, so it is reflexive, symmetric
      and transitive, and null matches only null. */
  predicate NullSafeEquals<T(==)>(a: Option<T>, b: Option<T>)
    ensures NullSafeEquals(a, b) <==> a == b
  {
    match a
    case None => b.None?
    case Some(x) => b.Some? && x == b.value
  }

  /** The value of `result` after starting at 1 and folding every h of hs, in order,
      with `result = 31 * result + h`, all in Java int arithmetic. */
  function PolyHash(hs: seq<Int32>): (r: Int32)
    ensures hs == [] ==> r == 1
  {
    if hs == [] then 1 else Step(PolyHash(hs[..|hs| - 1]), hs[|hs| - 1])
  }

  /** The same fold on unbounded integers. */
  function ExactPolynomial(hs: seq<Int32>): int {
    if hs == [] then 1 else PRIME * ExactPolynomial(hs[..|hs| - 1]) + hs[|hs| - 1]
  }

  /** The unbounded fold is the polynomial 31^n + hs[0] * 31^(n-1) + ... + hs[n-1] * 31^0. */
  lemma {:induction false} ExactPolynomialClosedForm(hs: seq<Int32>)
    ensures ExactPolynomial(hs) == Pow(PRIME, |hs|) + WeightedSum(hs)
  {
    if hs != [] {
      var prefix, last := hs[..|hs| - 1], hs[|hs| - 1];
      assert hs == prefix + [last];
      ExactPolynomialClosedForm(prefix);
      WeightedSumSnoc(prefix, last);
    }
  }

  /** The sum of hs[i] * 31^(n-1-i) over all indexes i. */
  function WeightedSum(hs: seq<Int32>): int {
    if hs == [] then 0 else hs[0] * Pow(PRIME, |hs| - 1) + WeightedSum(hs[1..])
  }

  function Pow(b: nat, n: nat): nat {
    if n == 0 then 1 else b * Pow(b, n - 1)
  }

  /** Appending a value multiplies the weights of the earlier ones by 31. */
  lemma {:induction false} WeightedSumSnoc(p: seq<Int32>, x: Int32)
    ensures WeightedSum(p + [x]) == PRIME * WeightedSum(p) + x
  {
    if p == [] {
      assert [x][1..] == [];
    } else {
      assert (p + [x])[1..] == p[1..] + [x];
      WeightedSumSnoc(p[1..], x);
      assert p[0] * Pow(PRIME, |p|) == PRIME * (p[0] * Pow(PRIME, |p| - 1));
    }
  }

  /** n copies of the hash of a null field. */
  function Zeros(n: nat): (hs: seq<Int32>)
    ensures |hs| == n && forall i :: 0 <= i < n ==> hs[i] == 0
  {
    seq(n, i => 0)
  }

  lemma MulModCongruence(k: int, x: int, y: int)
    ensures (k * (x % TWO_TO_THE_32) + y) % TWO_TO_THE_32 == (k * x + y) % TWO_TO_THE_32
  {
    var q := x / TWO_TO_THE_32;
    assert x == q * TWO_TO_THE_32 + x % TWO_TO_THE_32;
    assert k * x + y == (k * q) * TWO_TO_THE_32 + (k * (x % TWO_TO_THE_32) + y);
    ModShift(k * q, k * (x % TWO_TO_THE_32) + y);
  }

  lemma ModShift(q: int, z: int)
    ensures (q * TWO_TO_THE_32 + z) % TWO_TO_THE_32 == z % TWO_TO_THE_32
  {
  }

  /** Wrapping after every statement gives the same fold on unbounded integers, truncated
      once: int overflow in the middle of hashCode loses nothing beyond the final truncation. */
  lemma {:induction false} PolyHashIsTruncatedPolynomial(hs: seq<Int32>)
    ensures PolyHash(hs) == ExactPolynomial(hs) % TWO_TO_THE_32
  {
    if hs != [] {
      var prefix, last := hs[..|hs| - 1], hs[|hs| - 1];
      PolyHashIsTruncatedPolynomial(prefix);
      MulModCongruence(PRIME, ExactPolynomial(prefix), last);
    }
  }

  /** The hash in closed form: 31^n + sum of hs[i] * 31^(n-1-i), truncated to 32 bits. */
  lemma PolyHashClosedForm(hs: seq<Int32>)
    ensures PolyHash(hs) == (Pow(PRIME, |hs|) + WeightedSum(hs)) % TWO_TO_THE_32
  {
    PolyHashIsTruncatedPolynomial(hs);
    ExactPolynomialClosedForm(hs);
    ModOfEqual(ExactPolynomial(hs), Pow(PRIME, |hs|) + WeightedSum(hs));
  }

  lemma ModOfEqual(x: int, y: int)
    requires x == y
    ensures x % TWO_TO_THE_32 == y % TWO_TO_THE_32
  {
  }

  /** With every folded value 0 (every field null) the exact polynomial is 31^n. */
  lemma {:induction false} ExactPolynomialOfZeros(n: nat)
    ensures ExactPolynomial(Zeros(n)) == Pow(PRIME, n)
  {
    if n > 0 {
      assert Zeros(n)[..n - 1] == Zeros(n - 1);
      ExactPolynomialOfZeros(n - 1);
    }
  }

  /** The hash of n null fields is 31^n in Java int arithmetic. */
  lemma PolyHashOfZeros(n: nat)
    ensures PolyHash(Zeros(n)) == Pow(PRIME, n) % TWO_TO_THE_32
  {
    PolyHashIsTruncatedPolynomial(Zeros(n));
    ExactPolynomialOfZeros(n);
  }

  /** A single folded value h gives 31 + h: the hashCode of a one-field class. */
  lemma PolyHashOfOne(h: Int32)
    ensures PolyHash([h]) == Wrap(PRIME + h)
  {
    assert [h][..0] == [];
  }
}
