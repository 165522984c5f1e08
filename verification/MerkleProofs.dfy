/** Checking of Merkle proofs, against hash trees. Hashes are an abstract type and `combine` an arbitrary
    function; what is said of collisions is said of that function. */
module MerkleProofs {
  import opened Common

  datatype MerkleProof<H> = MerkleProof(root: Option<H>, leaf: Option<H>, nodes: seq<H>)

  /** An odd node list runs past its end. */
  datatype Outcome = Verified | Failed | Panicked

  /** `x` is one of the first pair, the pair combines into one of the next, and so up to `root`. */
  predicate Climbs<H(==)>(combine: (H, H) -> H, x: H, nodes: seq<H>, root: H) {
    if nodes == [] then x == root
    else
      && |nodes| >= 2 && (x == nodes[0] || x == nodes[1])
      && Climbs(combine, combine(nodes[0], nodes[1]), nodes[2..], root)
  }

  lemma {:induction false} ClimbsEven<H>(combine: (H, H) -> H, x: H, nodes: seq<H>, root: H)
    requires Climbs(combine, x, nodes, root)
    ensures |nodes| % 2 == 0
    decreases |nodes|
  {
    if nodes != [] { ClimbsEven(combine, combine(nodes[0], nodes[1]), nodes[2..], root); }
  }

  predicate Checks<H(==)>(combine: (H, H) -> H, p: MerkleProof<H>) {
    p.leaf.Some? && p.root.Some? && Climbs(combine, p.leaf.value, p.nodes, p.root.value)
  }

  /** An empty node list is accepted whatever leaf and root are; any other is accepted exactly when leaf and
      root are given and the leaf climbs to the root. An odd list is never accepted. */
  method Verify<H(==)>(combine: (H, H) -> H, p: MerkleProof<H>) returns (o: Outcome)
    ensures o.Verified? <==> p.nodes == [] || Checks(combine, p)
    ensures o.Panicked? ==> |p.nodes| % 2 == 1
  {
    var len := |p.nodes|;
    if len > 0 && p.leaf.Some? && p.root.Some? && Climbs(combine, p.leaf.value, p.nodes, p.root.value) {
      ClimbsEven(combine, p.leaf.value, p.nodes, p.root.value);
    }
    var i := 0;
    ghost var x := p.leaf;
    while i < len
      invariant 0 <= i <= len && i % 2 == 0
      invariant i > 0 ==> p.leaf.Some? && x.Some?
      invariant 0 < i < len ==> i + 1 < len && (x == Some(p.nodes[i]) || x == Some(p.nodes[i + 1]))
      invariant i == len > 0 ==> x == p.root
      invariant i == 0 ==> x == p.leaf
      invariant p.leaf.Some? && p.root.Some? && i < len ==>
                  (Climbs(combine, p.leaf.value, p.nodes, p.root.value) <==>
                      Climbs(combine, x.value, p.nodes[i..], p.root.value))
      invariant i == len > 0 ==> p.root.Some? && Climbs(combine, p.leaf.value, p.nodes, p.root.value)
      decreases len - i
    {
      if i + 1 >= len { return Panicked; }
      var left := p.nodes[i];
      var right := p.nodes[i + 1];
      var parent := combine(left, right);
      if i == 0 {
        if p.leaf.None? { return Failed; }
        if !(p.leaf.value == left || p.leaf.value == right) { return Failed; }
      }
      assert p.nodes[i..][2..] == p.nodes[i + 2..];
      if i + 1 == len - 1 {
        if p.root.None? { return Failed; }
        assert p.nodes[i + 2..] == [];
        if parent != p.root.value { return Failed; }
      } else {
        if i + 3 >= len { return Panicked; }
        if parent != p.nodes[i + 2] && parent != p.nodes[i + 3] { return Failed; }
      }
      x := Some(parent);
      i := i + 2;
    }
    o := Verified;
  }

  // ---- Hash trees ----

  datatype Tree<H> = Leaf(hash: H) | Node(left: Tree<H>, right: Tree<H>)

  function HashOf<H>(combine: (H, H) -> H, t: Tree<H>): H {
    match t
    case Leaf(h) => h
    case Node(l, r) => combine(HashOf(combine, l), HashOf(combine, r))
  }

  /** The subtree at the end of a path; `true` goes right. */
  function Sub<H>(t: Tree<H>, path: seq<bool>): Option<Tree<H>> {
    if path == [] then Some(t)
    else if t.Leaf? then None
    else Sub(if path[0] then t.right else t.left, path[1..])
  }

  function Leaves<H(==)>(t: Tree<H>): set<H> {
    match t
    case Leaf(h) => {h}
    case Node(l, r) => Leaves(l) + Leaves(r)
  }

  ghost predicate Image<H(!new)>(combine: (H, H) -> H, h: H) {
    exists a, b :: combine(a, b) == h
  }

  /** Two different pairs combine into one hash. */
  ghost predicate Collides<H(!new)>(combine: (H, H) -> H) {
    exists a, b, c, d :: combine(a, b) == combine(c, d) && (a != c || b != d)
  }

  /** `combine` has a collision, or a leaf of the tree is itself a combination. */
  ghost predicate Forged<H(!new)>(combine: (H, H) -> H, t: Tree<H>) {
    Collides(combine) || exists h :: h in Leaves(t) && Image(combine, h)
  }

  lemma {:induction false} SubAppend<H>(t: Tree<H>, path: seq<bool>, right: bool)
    requires Sub(t, path).Some? && Sub(t, path).value.Node?
    ensures Sub(t, path + [right]) == Some(if right then Sub(t, path).value.right else Sub(t, path).value.left)
  {
    if path == [] {
      assert [right][1..] == [];
    } else {
      SubAppend(if path[0] then t.right else t.left, path[1..], right);
      assert (path + [right])[1..] == path[1..] + [right];
    }
  }

  lemma {:induction false} SubLeaves<H(!new)>(t: Tree<H>, path: seq<bool>)
    requires Sub(t, path).Some?
    ensures Leaves(Sub(t, path).value) <= Leaves(t)
  {
    if path != [] { SubLeaves(if path[0] then t.right else t.left, path[1..]); }
  }

  /** Soundness without assumptions: what climbs to the root of a tree sits in that tree, one level for each
      pair of nodes, or the hash function has been broken. */
  lemma {:induction false} Locate<H(!new)>(combine: (H, H) -> H, t: Tree<H>, x: H, nodes: seq<H>)
    returns (path: seq<bool>)
    requires Climbs(combine, x, nodes, HashOf(combine, t))
    ensures |path| == |nodes| / 2
    ensures Forged(combine, t) || (Sub(t, path).Some? && HashOf(combine, Sub(t, path).value) == x)
    decreases |nodes|
  {
    if nodes == [] {
      path := [];
    } else {
      var a, b := nodes[0], nodes[1];
      path := Locate(combine, t, combine(a, b), nodes[2..]);
      if !Forged(combine, t) {
        var s := Sub(t, path).value;
        SubLeaves(t, path);
        if s.Leaf? {
          assert s.hash in Leaves(t) && Image(combine, s.hash);
        } else {
          var l, r := HashOf(combine, s.left), HashOf(combine, s.right);
          assert combine(l, r) == combine(a, b);
          assert l == a && r == b;
        }
        SubAppend(t, path, x != a);
      }
      path := path + [x != a];
    }
  }

  /** With a collision-free `combine` and leaves that are no combinations, a verified proof of at least one
      pair puts its leaf at depth half its length; a leaf that is no combination is a leaf of the tree. */
  lemma VerifiedIsIn<H(!new)>(combine: (H, H) -> H, t: Tree<H>, p: MerkleProof<H>) returns (path: seq<bool>)
    requires p.nodes != [] && p.leaf.Some? && p.root == Some(HashOf(combine, t))
    requires Climbs(combine, p.leaf.value, p.nodes, p.root.value)
    requires !Collides(combine) && forall h :: h in Leaves(t) ==> !Image(combine, h)
    ensures |path| == |p.nodes| / 2 && Sub(t, path).Some? && HashOf(combine, Sub(t, path).value) == p.leaf.value
    ensures !Image(combine, p.leaf.value) ==> Sub(t, path) == Some(Leaf(p.leaf.value)) && p.leaf.value in Leaves(t)
  {
    path := Locate(combine, t, p.leaf.value, p.nodes);
    var s := Sub(t, path).value;
    if s.Node? {
      assert Image(combine, combine(HashOf(combine, s.left), HashOf(combine, s.right)));
    }
    SubLeaves(t, path);
  }

  /** The sibling pairs of a path, from the bottom up. */
  function PathNodes<H>(combine: (H, H) -> H, t: Tree<H>, path: seq<bool>): seq<H>
    requires Sub(t, path).Some?
  {
    if path == [] then []
    else PathNodes(combine, if path[0] then t.right else t.left, path[1..])
         + [HashOf(combine, t.left), HashOf(combine, t.right)]
  }

  lemma {:induction false} ClimbsAppend<H>(combine: (H, H) -> H, x: H, nodes: seq<H>, y: H, a: H, b: H)
    requires Climbs(combine, x, nodes, y) && (y == a || y == b)
    ensures Climbs(combine, x, nodes + [a, b], combine(a, b))
    decreases |nodes|
  {
    if nodes == [] {
      assert [a, b][2..] == [];
      assert nodes + [a, b] == [a, b];
    } else {
      ClimbsAppend(combine, combine(nodes[0], nodes[1]), nodes[2..], y, a, b);
      assert (nodes + [a, b])[2..] == nodes[2..] + [a, b];
    }
  }

  /** Completeness: the pairs along any path of any tree verify. */
  lemma {:induction false} PathVerifies<H>(combine: (H, H) -> H, t: Tree<H>, path: seq<bool>)
    requires Sub(t, path).Some?
    ensures Climbs(combine, HashOf(combine, Sub(t, path).value), PathNodes(combine, t, path), HashOf(combine, t))
    ensures |PathNodes(combine, t, path)| == 2 * |path|
  {
    if path != [] {
      var child := if path[0] then t.right else t.left;
      PathVerifies(combine, child, path[1..]);
      ClimbsAppend(combine, HashOf(combine, Sub(child, path[1..]).value), PathNodes(combine, child, path[1..]),
                   HashOf(combine, child), HashOf(combine, t.left), HashOf(combine, t.right));
    }
  }
}
