/** The distance between hashes that decides which peers keep what. */
module XorDistance {
  import opened Common
  import opened Hashes

  /** Exclusive or of the binary digits. */
  function Xor(a: nat, b: nat): nat {
    if a == 0 && b == 0 then 0 else (a + b) % 2 + 2 * Xor(a / 2, b / 2)
  }

  /** Binary digit `i` of `x`. */
  function Bit(x: nat, i: nat): bool {
    if i == 0 then x % 2 == 1 else Bit(x / 2, i - 1)
  }

  function Pow2(k: nat): nat {
    if k == 0 then 1 else 2 * Pow2(k - 1)
  }

  /** A digit is set exactly when the two numbers differ in it. */
  lemma {:induction false} XorBit(a: nat, b: nat, i: nat)
    ensures Bit(Xor(a, b), i) <==> Bit(a, i) != Bit(b, i)
    decreases i
  {
    var x := Xor(a, b);
    if a != 0 || b != 0 {
      assert x % 2 == (a + b) % 2 && x / 2 == Xor(a / 2, b / 2);
    }
    if i > 0 { XorBit(a / 2, b / 2, i - 1); }
  }

  lemma {:induction false} XorZero(a: nat, b: nat)
    ensures Xor(a, b) == 0 <==> a == b
    decreases a + b
  {
    if a != 0 || b != 0 { XorZero(a / 2, b / 2); }
  }

  lemma {:induction false} XorSymmetric(a: nat, b: nat)
    ensures Xor(a, b) == Xor(b, a)
    decreases a + b
  {
    if a != 0 || b != 0 { XorSymmetric(a / 2, b / 2); }
  }

  lemma {:induction false} XorUnfolds(a: nat, b: nat)
    ensures Xor(a, b) == (a + b) % 2 + 2 * Xor(a / 2, b / 2)
  {}

  lemma ParityTriangle(a: nat, b: nat, c: nat)
    ensures (a + c) % 2 <= (a + b) % 2 + (b + c) % 2
  {}

  lemma {:induction false} XorTriangle(a: nat, b: nat, c: nat)
    ensures Xor(a, c) <= Xor(a, b) + Xor(b, c)
    decreases a + b + c
  {
    if a + b + c > 0 {
      XorTriangle(a / 2, b / 2, c / 2);
      XorUnfolds(a, c);
      XorUnfolds(a, b);
      XorUnfolds(b, c);
      ParityTriangle(a, b, c);
    }
  }

  lemma {:induction false} XorBounded(a: nat, b: nat, k: nat)
    requires a < Pow2(k) && b < Pow2(k)
    ensures Xor(a, b) < Pow2(k)
    decreases k
  {
    if a != 0 || b != 0 { XorBounded(a / 2, b / 2, k - 1); }
  }

  function XorByte(a: Byte, b: Byte): (x: Byte) {
    assert Pow2(8) == 256;
    XorBounded(a, b, 8);
    Xor(a, b)
  }

  function Min(a: nat, b: nat): nat {
    if a < b then a else b
  }

  /** Byte by byte, as far as both reach. */
  function XorVec(a: Hash, b: Hash): seq<Byte> {
    seq(Min(|a|, |b|), i requires 0 <= i < Min(|a|, |b|) => XorByte(a[i], b[i]))
  }

  /** The sum of the first `n` bytes. */
  function ByteSum(v: seq<Byte>, n: nat): nat
    requires n <= |v|
  {
    if n == 0 then 0 else ByteSum(v, n - 1) + v[n - 1]
  }

  function Distance(a: Hash, b: Hash): nat {
    var v := XorVec(a, b);
    ByteSum(v, |v|)
  }

  /** Digit `j` of byte `i` of the combined hash is set exactly when the two bytes differ in it. */
  lemma XorVecBit(a: Hash, b: Hash, i: nat, j: nat)
    requires i < |a| && i < |b|
    ensures i < |XorVec(a, b)| && (Bit(XorVec(a, b)[i], j) <==> Bit(a[i], j) != Bit(b[i], j))
  {
    XorBit(a[i], b[i], j);
  }

  /** The number that has, among its low `n` digits, those set in which `x` and `y` differ. */
  function Difference(x: nat, y: nat, n: nat): nat {
    if n == 0 then 0 else Difference(x, y, n - 1) + if Bit(x, n - 1) != Bit(y, n - 1) then Pow2(n - 1) else 0
  }

  lemma {:induction false} DifferenceShift(x: nat, y: nat, n: nat)
    ensures Difference(x, y, n + 1) == (x + y) % 2 + 2 * Difference(x / 2, y / 2, n)
  {
    if n > 0 { DifferenceShift(x, y, n - 1); }
  }

  /** Exclusive or, by the digits in which the two numbers differ. */
  lemma {:induction false} XorIsDifference(x: nat, y: nat, n: nat)
    requires x < Pow2(n) && y < Pow2(n)
    ensures Xor(x, y) == Difference(x, y, n)
  {
    if n > 0 {
      XorIsDifference(x / 2, y / 2, n - 1);
      DifferenceShift(x, y, n - 1);
      XorUnfolds(x, y);
    }
  }

  /** The distance of two one-byte hashes is the number whose eight digits say where they differ. */
  lemma OneByteDistance(x: Byte, y: Byte)
    ensures Distance([x], [y]) == Difference(x, y, 8)
  {
    var v := XorVec([x], [y]);
    assert ByteSum(v, 1) == ByteSum(v, 0) + v[0];
    assert Pow2(8) == 256;
    XorIsDifference(x, y, 8);
  }

  lemma {:induction false} ByteSumPrefix(v: seq<Byte>, w: seq<Byte>, n: nat)
    requires n <= |v| && n <= |w| && v[..n] == w[..n]
    ensures ByteSum(v, n) == ByteSum(w, n)
  {
    if n > 0 {
      assert v[..n - 1] == v[..n][..n - 1] && w[..n - 1] == w[..n][..n - 1];
      assert v[n - 1] == v[..n][n - 1] && w[n - 1] == w[..n][n - 1];
      ByteSumPrefix(v, w, n - 1);
    }
  }

  /** The distance adds up over the bytes. */
  lemma DistanceAppends(a: Hash, b: Hash, x: Byte, y: Byte)
    requires |a| == |b|
    ensures Distance(a + [x], b + [y]) == Distance(a, b) + Distance([x], [y])
  {
    var v, w, one := XorVec(a + [x], b + [y]), XorVec(a, b), XorVec([x], [y]);
    assert v[..|a|] == w[..|a|];
    ByteSumPrefix(v, w, |a|);
    assert ByteSum(one, 1) == ByteSum(one, 0) + one[0];
  }

  lemma {:induction false} ByteSumZero(v: seq<Byte>, n: nat)
    requires n <= |v|
    ensures ByteSum(v, n) == 0 <==> forall i :: 0 <= i < n ==> v[i] == 0
  {
    if n > 0 { ByteSumZero(v, n - 1); }
  }

  lemma {:induction false} ByteSumBounded(v: seq<Byte>, n: nat)
    requires n <= |v|
    ensures ByteSum(v, n) <= 255 * n
  {
    if n > 0 { ByteSumBounded(v, n - 1); }
  }

  /** Zero exactly when the shorter hash is a prefix of the longer: for hashes of one length, when they are equal. */
  lemma ZeroIffPrefix(a: Hash, b: Hash)
    ensures Distance(a, b) == 0 <==> a <= b || b <= a
    ensures |a| == |b| ==> (Distance(a, b) == 0 <==> a == b)
  {
    var v := XorVec(a, b);
    ByteSumZero(v, |v|);
    forall i | 0 <= i < |v| ensures v[i] == 0 <==> a[i] == b[i] { XorZero(a[i], b[i]); }
  }

  lemma Symmetric(a: Hash, b: Hash)
    ensures Distance(a, b) == Distance(b, a)
  {
    var v, w := XorVec(a, b), XorVec(b, a);
    forall i | 0 <= i < |v| ensures v[i] == w[i] { XorSymmetric(a[i], b[i]); }
    assert v == w;
  }

  lemma Bounded(a: Hash, b: Hash)
    ensures Distance(a, b) <= 255 * Min(|a|, |b|)
  {
    ByteSumBounded(XorVec(a, b), |XorVec(a, b)|);
  }

  lemma {:induction false} SumMonotone(v: seq<Byte>, n: nat, m: nat)
    requires n <= m <= |v|
    ensures ByteSum(v, n) <= ByteSum(v, m)
  {
    if n < m { SumMonotone(v, n, m - 1); }
  }

  lemma {:induction false} SumTriangle(ac: seq<Byte>, ab: seq<Byte>, bc: seq<Byte>, n: nat)
    requires n <= |ac| && n <= |ab| && n <= |bc| && forall i :: 0 <= i < n ==>
              ac[i] as int <= ab[i] as int + bc[i] as int
    ensures ByteSum(ac, n) <= ByteSum(ab, n) + ByteSum(bc, n)
  {
    if n > 0 { SumTriangle(ac, ab, bc, n - 1); }
  }

  /** The triangle inequality, when the middle hash reaches as far as the other two both do. */
  lemma Triangle(a: Hash, b: Hash, c: Hash)
    requires |b| >= Min(|a|, |c|)
    ensures Distance(a, c) <= Distance(a, b) + Distance(b, c)
  {
    var ac, ab, bc := XorVec(a, c), XorVec(a, b), XorVec(b, c);
    var n := |ac|;
    forall i | 0 <= i < n ensures ac[i] as int <= ab[i] as int + bc[i] as int { XorTriangle(a[i], b[i], c[i]); }
    SumTriangle(ac, ab, bc, n);
    SumMonotone(ab, n, |ab|);
    SumMonotone(bc, n, |bc|);
  }

  /** The triangle inequality holds for all hashes of these three lengths. */
  ghost predicate TriangleAt(la: nat, lb: nat, lc: nat) {
    forall a: Hash, b: Hash, c: Hash :: |a| == la && |b| == lb && |c| == lc ==>
      Distance(a, c) <= Distance(a, b) + Distance(b, c)
  }

  function Constant(n: nat, x: Byte): (h: Hash)
    ensures |h| == n && forall i :: 0 <= i < n ==> h[i] == x
  {
    seq(n, _ => x)
  }

  /** A middle hash that stops short hides the byte that tells the other two apart. */
  lemma ShortMiddle(la: nat, lb: nat, lc: nat)
    requires lb < Min(la, lc)
    ensures !TriangleAt(la, lb, lc)
  {
    var a, b := Constant(la, 0), Constant(lb, 0);
    var c := Constant(lb, 0) + Constant(lc - lb, 1);
    assert b <= a && b <= c;
    ZeroIffPrefix(a, b);
    ZeroIffPrefix(b, c);
    assert a[lb] != c[lb];
    ZeroIffPrefix(a, c);
  }

  /** The distance is a metric on hashes of one length, and its triangle inequality fails exactly when the
      middle hash is shorter than both the others. */
  lemma TriangleIff(la: nat, lb: nat, lc: nat)
    ensures TriangleAt(la, lb, lc) <==> lb >= Min(la, lc)
  {
    if lb >= Min(la, lc) {
      forall a: Hash, b: Hash, c: Hash | |a| == la && |b| == lb && |c| == lc
        ensures Distance(a, c) <= Distance(a, b) + Distance(b, c)
      {
        Triangle(a, b, c);
      }
    } else {
      ShortMiddle(la, lb, lc);
    }
  }
}
