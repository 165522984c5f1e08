/** Hash bytes: the order that settles conflicts and the peer distance. */
module Hashes {
  import opened Common

  type Hash = seq<Byte>

  /** Byte-wise lexicographic order, as `Vec<u8>::cmp` has it. */
  predicate Less(a: Hash, b: Hash) {
    if b == [] then false
    else if a == [] then true
    else a[0] < b[0] || (a[0] == b[0] && Less(a[1..], b[1..]))
  }

  /** A proper prefix, or smaller at the first byte where they differ. */
  ghost predicate Precedes(a: Hash, b: Hash) {
    a < b || exists k :: 0 <= k < |a| && k < |b| && a[..k] == b[..k] && a[k] < b[k]
  }

  /** What the order means. */
  lemma {:induction false} LessIff(a: Hash, b: Hash)
    ensures Less(a, b) <==> Precedes(a, b)
    decreases |a|
  {
    if a != [] && b != [] && a[0] == b[0] {
      LessIff(a[1..], b[1..]);
      TailPrecedes(a, b);
    } else if a != [] && b != [] {
      if a[0] < b[0] { assert a[..0] == b[..0]; }
      if Precedes(a, b) { HeadsOrdered(a, b); }
    }
  }

  lemma HeadsOrdered(a: Hash, b: Hash)
    requires a != [] && b != [] && Precedes(a, b)
    ensures a[0] <= b[0]
  {
    if !(a < b) {
      var k :| 0 <= k < |a| && k < |b| && a[..k] == b[..k] && a[k] < b[k];
      if k > 0 { assert a[0] == a[..k][0] && b[0] == b[..k][0]; }
    }
  }

  lemma TailPrecedes(a: Hash, b: Hash)
    requires a != [] && b != [] && a[0] == b[0]
    ensures Precedes(a, b) <==> Precedes(a[1..], b[1..])
  {
    if Precedes(a, b) { ShorterPrecedes(a, b); }
    if Precedes(a[1..], b[1..]) { LongerPrecedes(a, b); }
  }

  lemma ShorterPrecedes(a: Hash, b: Hash)
    requires a != [] && b != [] && a[0] == b[0] && Precedes(a, b)
    ensures Precedes(a[1..], b[1..])
  {
    if !(a < b) {
      var k :| 0 <= k < |a| && k < |b| && a[..k] == b[..k] && a[k] < b[k];
      assert a[1..][..k - 1] == a[..k][1..] && b[1..][..k - 1] == b[..k][1..];
      assert a[1..][k - 1] < b[1..][k - 1];
    }
  }

  lemma LongerPrecedes(a: Hash, b: Hash)
    requires a != [] && b != [] && a[0] == b[0] && Precedes(a[1..], b[1..])
    ensures Precedes(a, b)
  {
    var x, y := a[1..], b[1..];
    if x < y {
      assert a == [a[0]] + x && b == [b[0]] + y;
    } else {
      var k :| 0 <= k < |x| && k < |y| && x[..k] == y[..k] && x[k] < y[k];
      assert a[..k + 1] == [a[0]] + x[..k] && b[..k + 1] == [b[0]] + y[..k];
      assert a[k + 1] < b[k + 1];
    }
  }

  lemma LessIrreflexive(a: Hash)
    ensures !Less(a, a)
  {}

  lemma {:induction false} LessTransitive(a: Hash, b: Hash, c: Hash)
    requires Less(a, b) && Less(b, c)
    ensures Less(a, c)
  {
    if a != [] && a[0] == b[0] == c[0] {
      LessTransitive(a[1..], b[1..], c[1..]);
    }
  }

  lemma LessAsymmetric(a: Hash, b: Hash)
    requires Less(a, b)
    ensures !Less(b, a)
  {
    if Less(b, a) {
      LessTransitive(a, b, a);
      LessIrreflexive(a);
    }
  }

  lemma {:induction false} LessTotal(a: Hash, b: Hash)
    requires a != b
    ensures Less(a, b) || Less(b, a)
  {
    if a != [] && b != [] && a[0] == b[0] {
      assert a == [a[0]] + a[1..] && b == [b[0]] + b[1..];
      LessTotal(a[1..], b[1..]);
    }
  }
}
