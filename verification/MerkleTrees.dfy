/** Building of Merkle trees level by level, and the proofs read off the child-to-parent index. */
module MerkleTrees {
  import opened Common
  import opened MerkleProofs

  datatype Entry<H> = Entry(parent: H, left: H, right: H)

  function Pad<H>(s: seq<H>): seq<H> {
    if |s| % 2 == 1 then s + [s[|s| - 1]] else s
  }

  /** The entries of one level, left to right. */
  function Pairs<H>(combine: (H, H) -> H, s: seq<H>): (entries: seq<Entry<H>>)
    requires |s| % 2 == 0
    ensures |entries| == |s| / 2
    ensures forall k :: 0 <= k < |entries| ==>
              entries[k] == Entry(combine(s[2 * k], s[2 * k + 1]), s[2 * k], s[2 * k + 1])
  {
    seq(|s| / 2, k requires 0 <= k < |s| / 2 => Entry(combine(s[2 * k], s[2 * k + 1]), s[2 * k], s[2 * k + 1]))
  }

  function Parents<H>(entries: seq<Entry<H>>): (parents: seq<H>)
    ensures |parents| == |entries|
    ensures forall k :: 0 <= k < |entries| ==> parents[k] == entries[k].parent
  {
    seq(|entries|, k requires 0 <= k < |entries| => entries[k].parent)
  }

  /** All entries of the tree, lowest level first; the last is the top. */
  function Entries<H>(combine: (H, H) -> H, leafs: seq<H>): (entries: seq<Entry<H>>)
    requires leafs != []
    ensures entries != []
    decreases |leafs|
  {
    var level := Pairs(combine, Pad(leafs));
    if |level| == 1 then level else level + Entries(combine, Parents(level))
  }

  function Root<H>(combine: (H, H) -> H, leafs: seq<H>): H
    requires leafs != []
  {
    var e := Entries(combine, leafs);
    e[|e| - 1].parent
  }

  /** One level: combine neighbours from left to right. */
  method CombineLevel<H>(combine: (H, H) -> H, leafs: seq<H>) returns (level: seq<Entry<H>>, parents: seq<H>)
    requires |leafs| % 2 == 0
    ensures level == Pairs(combine, leafs) && parents == Parents(level)
  {
    level, parents := [], [];
    var i := 0;
    while i < |leafs|
      invariant 0 <= i <= |leafs| && i % 2 == 0
      invariant |level| == i / 2 && level == Pairs(combine, leafs)[..i / 2]
      invariant |parents| == i / 2 && forall k :: 0 <= k < i / 2 ==> parents[k] == level[k].parent
    {
      var parent := combine(leafs[i], leafs[i + 1]);
      assert i == 2 * (i / 2);
      assert Pairs(combine, leafs)[i / 2] == Entry(parent, leafs[i], leafs[i + 1]);
      level := level + [Entry(parent, leafs[i], leafs[i + 1])];
      parents := parents + [parent];
      i := i + 2;
    }
    assert level == Pairs(combine, leafs);
  }

  /** Pad, combine the pairs, go on with the parents. */
  method BuildLevel<H>(combine: (H, H) -> H, ghost original: seq<H>, entries: seq<Entry<H>>, leafs: seq<H>)
    returns (more: seq<Entry<H>>, parents: seq<H>)
    requires original != [] && Remaining(combine, original, entries, leafs)
    ensures |parents| == 1 ==> more == Entries(combine, original)
    ensures |parents| != 1 ==> |parents| < |leafs| && Remaining(combine, original, more, parents)
  {
    var level;
    level, parents := CombineLevel(combine, Pad(leafs));
    LevelUnfolds(combine, original, entries, leafs);
    more := entries + level;
  }

  /** Level after level until one parent is left. */
  method BuildEntries<H>(combine: (H, H) -> H, original: seq<H>) returns (entries: seq<Entry<H>>)
    requires original != []
    ensures entries == Entries(combine, original)
    ensures ByPosition(combine, original, entries)
  {
    EntriesByPosition(combine, original);
    var leafs := original;
    entries := [];
    var done := false;
    while !done
      invariant !done ==> Remaining(combine, original, entries, leafs)
      invariant done ==> entries == Entries(combine, original)
      decreases !done, |leafs|
    {
      var more, parents := BuildLevel(combine, original, entries, leafs);
      entries := more;
      done := |parents| == 1;
      leafs := parents;
    }
  }

  /** The root of the built tree: the parent of its last entry. */
  method BuildRoot<H>(combine: (H, H) -> H, leafs: seq<H>) returns (root: H)
    requires leafs != []
    ensures root == Root(combine, leafs)
  {
    var entries := BuildEntries(combine, leafs);
    root := entries[|entries| - 1].parent;
  }

  /** The entries so far, and those of the tree over `leafs`, are all there are. */
  ghost predicate Remaining<H>(combine: (H, H) -> H, original: seq<H>, done: seq<Entry<H>>, leafs: seq<H>)
    requires original != []
  {
    leafs != [] && Entries(combine, original) == done + Entries(combine, leafs)
  }

  lemma {:induction false} LevelUnfolds<H>(combine: (H, H) -> H, original: seq<H>, done: seq<Entry<H>>, leafs: seq<H>)
    requires original != [] && Remaining(combine, original, done, leafs)
    ensures var level := Pairs(combine, Pad(leafs));
            && (|level| == 1 ==> done + level == Entries(combine, original))
            && (|level| != 1 ==> |level| < |leafs| && Remaining(combine, original, done + level, Parents(level)))
  {
    var level := Pairs(combine, Pad(leafs));
    if |level| != 1 {
      var rest := Entries(combine, Parents(level));
      assert done + (level + rest) == (done + level) + rest;
    }
  }

  // ---- The tree by position ----

  /** Number of hashes on a level above `n` leafs. */
  function Width(n: nat, level: nat): nat {
    if level == 0 then n else (Width(n, level - 1) + 1) / 2
  }

  /** The right neighbour of an even position; the last of an odd number has itself. */
  function Partner(width: nat, i: nat): nat {
    if i + 1 < width then i + 1 else i
  }

  /** The hash at a position: that of the two below it. */
  function NodeAt<H>(combine: (H, H) -> H, leafs: seq<H>, level: nat, i: nat): H
    requires i < Width(|leafs|, level)
  {
    if level == 0 then leafs[i]
    else
      combine(NodeAt(combine, leafs, level - 1, 2 * i),
              NodeAt(combine, leafs, level - 1, Partner(Width(|leafs|, level - 1), 2 * i)))
  }

  lemma {:induction false} WidthFalls(n: nat, a: nat, b: nat)
    requires n > 0 && a <= b
    ensures 1 <= Width(n, b) <= Width(n, a)
    ensures a < b && Width(n, a) > 1 ==> Width(n, b) < Width(n, a)
    decreases b
  {
    if a < b { WidthFalls(n, a, b - 1); } else if a > 0 { WidthFalls(n, a - 1, a - 1); }
  }

  /** There are entries above this level. */
  predicate Inner(n: nat, level: nat) {
    level == 0 || Width(n, level) > 1
  }

  /** The top level: one entry, the last, over one or two hashes. */
  predicate Top(n: nat, level: nat) {
    Inner(n, level) && Width(n, level + 1) == 1
  }

  lemma {:induction false} TopExists(n: nat, level: nat) returns (top: nat)
    requires n > 0 && Inner(n, level)
    ensures Top(n, top)
    decreases Width(n, level)
  {
    WidthFalls(n, level, level + 1);
    if Width(n, level + 1) == 1 { top := level; } else { top := TopExists(n, level + 1); }
  }

  /** An entry by its position: the hash on its own level over the two on the level below. */
  function EntryOf<H>(combine: (H, H) -> H, leafs: seq<H>, level: nat, i: nat): Entry<H>
    requires i < Width(|leafs|, level + 1)
  {
    Entry(NodeAt(combine, leafs, level + 1, i), NodeAt(combine, leafs, level, 2 * i),
          NodeAt(combine, leafs, level, Partner(Width(|leafs|, level), 2 * i)))
  }

  /** The entries over one level, by position. */
  function EntriesOver<H>(combine: (H, H) -> H, leafs: seq<H>, level: nat): (entries: seq<Entry<H>>)
    ensures |entries| == Width(|leafs|, level + 1)
    ensures forall i :: 0 <= i < |entries| ==> entries[i] == EntryOf(combine, leafs, level, i)
  {
    seq(Width(|leafs|, level + 1),
        i requires 0 <= i < Width(|leafs|, level + 1) => EntryOf(combine, leafs, level, i))
  }

  /** The entries over the first `n` levels. */
  function EntriesTo<H>(combine: (H, H) -> H, leafs: seq<H>, n: nat): seq<Entry<H>> {
    if n == 0 then [] else EntriesTo(combine, leafs, n - 1) + EntriesOver(combine, leafs, n - 1)
  }

  /** `s` is a level of the tree over `leafs`. */
  ghost predicate IsLevel<H>(combine: (H, H) -> H, leafs: seq<H>, level: nat, s: seq<H>) {
    && |s| == Width(|leafs|, level)
    && forall i :: 0 <= i < |s| ==> s[i] == NodeAt(combine, leafs, level, i)
  }

  /** Padding and pairing one level gives the entries over it, and their parents the next level. */
  lemma LevelUp<H>(combine: (H, H) -> H, leafs: seq<H>, level: nat, s: seq<H>)
    requires s != [] && IsLevel(combine, leafs, level, s)
    ensures Pairs(combine, Pad(s)) == EntriesOver(combine, leafs, level)
    ensures IsLevel(combine, leafs, level + 1, Parents(Pairs(combine, Pad(s))))
  {
    var padded := Pad(s);
    var pairs := Pairs(combine, padded);
    forall i | 0 <= i < |pairs| ensures pairs[i] == EntryOf(combine, leafs, level, i) {
      assert padded[2 * i] == s[2 * i] && padded[2 * i + 1] == s[Partner(|s|, 2 * i)];
    }
  }

  /** The entries are those over one level and those of the tree over its parents. */
  lemma {:induction false} EntriesSplit<H>(combine: (H, H) -> H, leafs: seq<H>, level: nat, s: seq<H>)
    returns (up: seq<H>)
    requires s != [] && IsLevel(combine, leafs, level, s) && Width(|leafs|, level + 1) > 1
    ensures up != [] && IsLevel(combine, leafs, level + 1, up)
    ensures Entries(combine, s) == EntriesOver(combine, leafs, level) + Entries(combine, up)
  {
    LevelUp(combine, leafs, level, s);
    up := Parents(Pairs(combine, Pad(s)));
  }

  lemma {:induction false} LastSplit<H>(combine: (H, H) -> H, leafs: seq<H>, level: nat, s: seq<H>)
    requires s != [] && IsLevel(combine, leafs, level, s) && Width(|leafs|, level + 1) == 1
    ensures Entries(combine, s) == EntriesOver(combine, leafs, level)
  {
    LevelUp(combine, leafs, level, s);
  }

  lemma {:induction false} EntriesFrom<H>(combine: (H, H) -> H, leafs: seq<H>, level: nat, s: seq<H>, top: nat)
    requires leafs != [] && s != [] && IsLevel(combine, leafs, level, s) && level <= top && Top(|leafs|, top)
    ensures EntriesTo(combine, leafs, level) + Entries(combine, s) == EntriesTo(combine, leafs, top + 1)
    decreases top - level
  {
    if level == top {
      LastSplit(combine, leafs, level, s);
    } else {
      WidthFalls(|leafs|, level + 1, top);
      var up := EntriesSplit(combine, leafs, level, s);
      EntriesFrom(combine, leafs, level + 1, up, top);
      Regroup(EntriesTo(combine, leafs, level), EntriesOver(combine, leafs, level), Entries(combine, up));
    }
  }

  lemma Regroup<E>(a: seq<E>, b: seq<E>, c: seq<E>)
    ensures (a + b) + c == a + (b + c)
  {}

  /** The whole tree by positions, without padding: level by level up to the top. */
  ghost predicate ByPosition<H>(combine: (H, H) -> H, leafs: seq<H>, entries: seq<Entry<H>>) {
    exists top: nat :: Top(|leafs|, top) && entries == EntriesTo(combine, leafs, top + 1)
  }

  lemma EntriesByPosition<H>(combine: (H, H) -> H, leafs: seq<H>)
    requires leafs != []
    ensures ByPosition(combine, leafs, Entries(combine, leafs))
  {
    var top := TopExists(|leafs|, 0);
    EntriesFrom(combine, leafs, 0, leafs, top);
    assert [] + Entries(combine, leafs) == Entries(combine, leafs);
  }

  /** The root is the one hash of the top level. */
  lemma RootAt<H>(combine: (H, H) -> H, leafs: seq<H>, top: nat)
    requires leafs != [] && Top(|leafs|, top)
    ensures Root(combine, leafs) == NodeAt(combine, leafs, top + 1, 0)
  {
    EntriesFrom(combine, leafs, 0, leafs, top);
    assert [] + Entries(combine, leafs) == Entries(combine, leafs);
  }

  predicate IsChild<H(==)>(e: Entry<H>, x: H) {
    e.left == x || e.right == x
  }

  /** Later entries overwrite earlier ones. */
  function ChildToParent<H(==)>(entries: seq<Entry<H>>): map<H, Entry<H>> {
    if entries == [] then map[]
    else
      var last := entries[|entries| - 1];
      ChildToParent(entries[..|entries| - 1])[last.left := last][last.right := last]
  }

  /** The index holds, for each child, the last entry that has it. */
  lemma {:induction false} IndexIsLast<H>(entries: seq<Entry<H>>, x: H) returns (k: int)
    ensures x in ChildToParent(entries) <==> exists j :: 0 <= j < |entries| && IsChild(entries[j], x)
    ensures x in ChildToParent(entries) ==>
              0 <= k < |entries| && ChildToParent(entries)[x] == entries[k] && IsChild(entries[k], x)
              && forall j :: 0 <= j < |entries| && IsChild(entries[j], x) ==> j <= k
    decreases |entries|
  {
    if entries == [] {
      k := -1;
    } else {
      var n := |entries| - 1;
      k := IndexIsLast(entries[..n], x);
      assert forall j :: 0 <= j < n ==> entries[..n][j] == entries[j];
      if IsChild(entries[n], x) { k := n; }
    }
  }

  // ---- Linkage of the levels ----

  ghost predicate HasChild<H>(entries: seq<Entry<H>>, from: int, x: H) {
    exists j :: 0 <= j < |entries| && from <= j && IsChild(entries[j], x)
  }

  /** Every entry but the last has its parent among the children of a later entry. */
  ghost predicate Linked<H>(entries: seq<Entry<H>>) {
    forall k :: 0 <= k < |entries| - 1 ==> HasChild(entries, k + 1, entries[k].parent)
  }

  lemma {:induction false} PairHasChild<H>(combine: (H, H) -> H, s: seq<H>, i: nat)
    requires |s| % 2 == 0 && i < |s|
    ensures i / 2 < |Pairs(combine, s)| && IsChild(Pairs(combine, s)[i / 2], s[i])
  {
    var k := i / 2;
    assert i == 2 * k || i == 2 * k + 1;
    assert Pairs(combine, s)[k] == Entry(combine(s[2 * k], s[2 * k + 1]), s[2 * k], s[2 * k + 1]);
  }

  lemma {:induction false} FirstLevel<H>(combine: (H, H) -> H, leafs: seq<H>)
    requires leafs != []
    ensures Pairs(combine, Pad(leafs)) <= Entries(combine, leafs)
  {}

  lemma PrefixHasChild<H>(level: seq<Entry<H>>, all: seq<Entry<H>>, k: nat, x: H)
    requires level <= all && k < |level| && IsChild(level[k], x)
    ensures HasChild(all, 0, x)
  {
    assert IsChild(all[k], x);
  }

  lemma {:induction false} LeafIsChild<H>(combine: (H, H) -> H, leafs: seq<H>, i: nat)
    requires i < |leafs|
    ensures HasChild(Entries(combine, leafs), 0, leafs[i])
  {
    assert Pad(leafs)[i] == leafs[i];
    FirstLevel(combine, leafs);
    PairHasChild(combine, Pad(leafs), i);
    PrefixHasChild(Pairs(combine, Pad(leafs)), Entries(combine, leafs), i / 2, leafs[i]);
  }

  lemma HasChildShift<H>(a: seq<Entry<H>>, b: seq<Entry<H>>, from: int, x: H)
    requires HasChild(b, from, x)
    ensures HasChild(a + b, from + |a|, x)
  {
    var j :| 0 <= j < |b| && from <= j && IsChild(b[j], x);
    assert (a + b)[|a| + j] == b[j];
  }

  lemma HasChildWeaken<H>(e: seq<Entry<H>>, from: int, to: int, x: H)
    requires HasChild(e, from, x) && to <= from
    ensures HasChild(e, to, x)
  {
    var j :| 0 <= j < |e| && from <= j && IsChild(e[j], x);
    assert to <= j;
  }

  lemma {:induction false} EntriesLinked<H>(combine: (H, H) -> H, leafs: seq<H>)
    requires leafs != []
    ensures Linked(Entries(combine, leafs))
    decreases |leafs|
  {
    var level := Pairs(combine, Pad(leafs));
    if |level| > 1 {
      var rest := Entries(combine, Parents(level));
      EntriesLinked(combine, Parents(level));
      var all := level + rest;
      forall k | 0 <= k < |all| - 1 ensures HasChild(all, k + 1, all[k].parent) {
        if k < |level| {
          LeafIsChild(combine, Parents(level), k);
          HasChildShift(level, rest, 0, all[k].parent);
          HasChildWeaken(all, |level|, k + 1, all[k].parent);
        } else {
          assert all[k] == rest[k - |level|];
          assert HasChild(rest, k - |level| + 1, rest[k - |level|].parent);
          HasChildShift(level, rest, k - |level| + 1, all[k].parent);
        }
      }
    }
  }

  ghost predicate Combined<H>(combine: (H, H) -> H, entries: seq<Entry<H>>) {
    forall k :: 0 <= k < |entries| ==> entries[k].parent == combine(entries[k].left, entries[k].right)
  }

  lemma {:induction false} EntriesCombine<H>(combine: (H, H) -> H, leafs: seq<H>)
    requires leafs != []
    ensures Combined(combine, Entries(combine, leafs))
    decreases |leafs|
  {
    var level := Pairs(combine, Pad(leafs));
    if |level| > 1 { EntriesCombine(combine, Parents(level)); }
  }

  // ---- Proofs ----

  /** The proof of a leaf: follow the index upwards while it knows the hash. It ends because the index moves
      to a strictly later entry at every turn, unless the root is itself a child: then a walk that enters the
      index never leaves it, see RootIndexedNeverEnds, and there is no proof to give. */
  method Proof<H(==)>(combine: (H, H) -> H, leafs: seq<H>, leaf: H) returns (p: Option<MerkleProof<H>>)
    requires leafs != []
    ensures p.None? <==> leaf in ChildToParent(Entries(combine, leafs)) && RootIndexed(combine, leafs)
    ensures leaf in leafs ==> leaf in ChildToParent(Entries(combine, leafs))
    ensures p.Some? ==> p.value.root == Some(Root(combine, leafs)) && p.value.leaf == Some(leaf)
    ensures p.Some? && leaf in ChildToParent(Entries(combine, leafs)) ==>
              p.value.nodes != [] && Climbs(combine, leaf, p.value.nodes, Root(combine, leafs))
    ensures p.Some? && leaf !in ChildToParent(Entries(combine, leafs)) ==> p.value.nodes == []
  {
    var entries := BuildEntries(combine, leafs);
    var index := ChildToParent(entries);
    var root := entries[|entries| - 1].parent;
    if leaf in leafs { LeafIndexed(combine, leafs, leaf); }
    if leaf in index && root in index { return None; }
    var nodes: seq<H> := [];
    var active := leaf;
    ghost var at := -1;
    EntriesLinked(combine, leafs);
    EntriesCombine(combine, leafs);
    while active in index
      invariant -1 <= at < |entries|
      invariant at >= 0 ==> active == entries[at].parent
      invariant at == -1 ==> active == leaf && nodes == []
      invariant at >= 0 ==> nodes != [] && leaf in index
      invariant Climbs(combine, leaf, nodes, active)
      decreases |entries| - at
    {
      ghost var k := ProofStep(combine, entries, leaf, nodes, active, at);
      var e := index[active];
      nodes := nodes + [e.left] + [e.right];
      active := e.parent;
      at := k;
    }
    if at >= 0 { NotIndexedIsTop(combine, leafs, at); }
    p := Some(MerkleProof(Some(root), Some(leaf), nodes));
  }

  ghost predicate RootIndexed<H>(combine: (H, H) -> H, leafs: seq<H>)
    requires leafs != []
  {
    Root(combine, leafs) in ChildToParent(Entries(combine, leafs))
  }

  /** One turn: the index leads from the parent of one entry to a later entry. */
  lemma ProofStep<H>(combine: (H, H) -> H, entries: seq<Entry<H>>, leaf: H, nodes: seq<H>, active: H, at: int)
    returns (k: int)
    requires Linked(entries) && Combined(combine, entries) && active in ChildToParent(entries)
    requires -1 <= at < |entries| && (at >= 0 ==> active == entries[at].parent)
    requires entries != [] && entries[|entries| - 1].parent !in ChildToParent(entries)
    requires Climbs(combine, leaf, nodes, active)
    ensures at < k < |entries| && ChildToParent(entries)[active] == entries[k]
    ensures Climbs(combine, leaf, nodes + [entries[k].left] + [entries[k].right], entries[k].parent)
  {
    k := IndexIsLast(entries, active);
    var e := entries[k];
    if at >= 0 { assert HasChild(entries, at + 1, active); }
    ClimbsAppend(combine, leaf, nodes, active, e.left, e.right);
    assert nodes + [e.left] + [e.right] == nodes + [e.left, e.right];
  }

  /** Only the top entry has a parent that is nobody's child. */
  lemma {:induction false} NotIndexedIsTop<H>(combine: (H, H) -> H, leafs: seq<H>, at: nat)
    requires leafs != [] && at < |Entries(combine, leafs)|
    requires Entries(combine, leafs)[at].parent !in ChildToParent(Entries(combine, leafs))
    ensures at == |Entries(combine, leafs)| - 1
  {
    var e := Entries(combine, leafs);
    EntriesLinked(combine, leafs);
    assert at < |e| - 1 ==> HasChild(e, at + 1, e[at].parent);
    var k := IndexIsLast(e, e[at].parent);
  }

  /** Every leaf of a tree that is built has an entry in its index. */
  lemma {:induction false} LeafIndexed<H>(combine: (H, H) -> H, leafs: seq<H>, x: H)
    requires x in leafs
    ensures x in ChildToParent(Entries(combine, leafs))
  {
    var i :| 0 <= i < |leafs| && leafs[i] == x;
    LeafIsChild(combine, leafs, i);
    var k := IndexIsLast(Entries(combine, leafs), x);
  }

  /** `n` turns of the proof loop. */
  function Ascend<H(==)>(index: map<H, Entry<H>>, x: H, n: nat): Option<H> {
    if n == 0 then Some(x)
    else
      var y := Ascend(index, x, n - 1);
      if y.Some? && y.value in index then Some(index[y.value].parent) else None
  }

  /** If the root is somebody's child the loop never leaves the index: it runs for ever. */
  lemma {:induction false} RootIndexedNeverEnds<H>(combine: (H, H) -> H, leafs: seq<H>, x: H, n: nat)
    requires leafs != [] && RootIndexed(combine, leafs)
    requires x in ChildToParent(Entries(combine, leafs))
    ensures var y := Ascend(ChildToParent(Entries(combine, leafs)), x, n);
            y.Some? && y.value in ChildToParent(Entries(combine, leafs))
  {
    if n > 0 {
      RootIndexedNeverEnds(combine, leafs, x, n - 1);
      var e := Entries(combine, leafs);
      var y := Ascend(ChildToParent(e), x, n - 1).value;
      var k := IndexIsLast(e, y);
      EntriesLinked(combine, leafs);
      var j := IndexIsLast(e, e[k].parent);
      if k < |e| - 1 { assert HasChild(e, k + 1, e[k].parent); }
    }
  }

  // ---- A sound hash function never lets the root be a child ----

  /** `x` is combined `level` times over: zero times if it is no combination at all. */
  ghost predicate AtLevel<H(!new)>(combine: (H, H) -> H, level: nat, x: H) {
    if level == 0 then !Image(combine, x)
    else exists a, b :: combine(a, b) == x && AtLevel(combine, level - 1, a) && AtLevel(combine, level - 1, b)
  }

  /** Without collisions the level of a hash is unique. */
  lemma {:induction false} OneLevel<H(!new)>(combine: (H, H) -> H, i: nat, j: nat, x: H)
    requires !Collides(combine) && AtLevel(combine, i, x) && AtLevel(combine, j, x)
    ensures i == j
    decreases i
  {
    if i > 0 && j > 0 {
      var a, b :| combine(a, b) == x && AtLevel(combine, i - 1, a) && AtLevel(combine, i - 1, b);
      var c, d :| combine(c, d) == x && AtLevel(combine, j - 1, c) && AtLevel(combine, j - 1, d);
      assert a == c;
      OneLevel(combine, i - 1, j - 1, a);
    }
  }

  ghost predicate AllAtLevel<H(!new)>(combine: (H, H) -> H, level: nat, s: seq<H>) {
    forall i :: 0 <= i < |s| ==> AtLevel(combine, level, s[i])
  }

  /** The children of the entry are both below `top`. */
  ghost predicate ChildrenBelow<H(!new)>(combine: (H, H) -> H, e: Entry<H>, top: nat) {
    exists l :: 0 <= l < top && AtLevel(combine, l, e.left) && AtLevel(combine, l, e.right)
  }

  lemma PaddedLevel<H(!new)>(combine: (H, H) -> H, leafs: seq<H>, level: nat)
    requires leafs != [] && AllAtLevel(combine, level, leafs)
    ensures AllAtLevel(combine, level, Pad(leafs))
  {
    var padded := Pad(leafs);
    forall i | 0 <= i < |padded| ensures AtLevel(combine, level, padded[i]) {
      assert padded[i] == leafs[if i < |leafs| then i else |leafs| - 1];
    }
  }

  lemma ParentsUp<H(!new)>(combine: (H, H) -> H, s: seq<H>, level: nat)
    requires |s| % 2 == 0 && AllAtLevel(combine, level, s)
    ensures AllAtLevel(combine, level + 1, Parents(Pairs(combine, s)))
  {
    var pairs := Pairs(combine, s);
    forall k | 0 <= k < |pairs| ensures AtLevel(combine, level + 1, Parents(pairs)[k]) {
      assert Parents(pairs)[k] == combine(s[2 * k], s[2 * k + 1]);
    }
  }

  lemma PairsBelow<H(!new)>(combine: (H, H) -> H, s: seq<H>, level: nat, top: nat)
    requires |s| % 2 == 0 && AllAtLevel(combine, level, s) && level < top
    ensures AllBelow(combine, Pairs(combine, s), top)
  {
    var pairs := Pairs(combine, s);
    forall k | 0 <= k < |pairs| ensures ChildrenBelow(combine, pairs[k], top) {
      assert AtLevel(combine, level, pairs[k].left) && AtLevel(combine, level, pairs[k].right);
    }
  }

  lemma {:induction false} EntriesUnfold<H>(combine: (H, H) -> H, leafs: seq<H>)
    requires leafs != []
    ensures var pairs := Pairs(combine, Pad(leafs));
            && |pairs| >= 1
            && (|pairs| == 1 ==> Entries(combine, leafs) == pairs && Root(combine, leafs) == Parents(pairs)[0])
            && (|pairs| > 1 ==>
                 && |pairs| < |leafs| && Entries(combine, leafs) == pairs + Entries(combine, Parents(pairs))
                 && Root(combine, leafs) == Root(combine, Parents(pairs)))
  {}

  ghost predicate AllBelow<H(!new)>(combine: (H, H) -> H, entries: seq<Entry<H>>, top: nat) {
    forall k :: 0 <= k < |entries| ==> ChildrenBelow(combine, entries[k], top)
  }

  lemma BelowConcat<H(!new)>(combine: (H, H) -> H, a: seq<Entry<H>>, b: seq<Entry<H>>, top: nat)
    requires AllBelow(combine, a, top) && AllBelow(combine, b, top)
    ensures AllBelow(combine, a + b, top)
  {}

  /** The tree is level: the root is at one level and every child below it. */
  lemma {:induction false} EntriesLevel<H(!new)>(combine: (H, H) -> H, leafs: seq<H>, level: nat) returns (top: nat)
    requires leafs != [] && AllAtLevel(combine, level, leafs)
    ensures level < top && AtLevel(combine, top, Root(combine, leafs))
    ensures AllBelow(combine, Entries(combine, leafs), top)
    decreases |leafs|
  {
    var parents := Parents(Pairs(combine, Pad(leafs)));
    PaddedLevel(combine, leafs, level);
    ParentsUp(combine, Pad(leafs), level);
    EntriesUnfold(combine, leafs);
    if |parents| == 1 {
      top := level + 1;
      PairsBelow(combine, Pad(leafs), level, top);
    } else {
      top := EntriesLevel(combine, parents, level + 1);
      PairsBelow(combine, Pad(leafs), level, top);
      BelowConcat(combine, Pairs(combine, Pad(leafs)), Entries(combine, parents), top);
    }
  }

  /** With a collision free `combine` and leafs that are no combinations, the root is nobody's child, so every
      proof is given. */
  lemma RootUnindexed<H(!new)>(combine: (H, H) -> H, leafs: seq<H>)
    requires leafs != [] && !Collides(combine) && forall h :: h in leafs ==> !Image(combine, h)
    ensures !RootIndexed(combine, leafs)
  {
    forall i | 0 <= i < |leafs| ensures AtLevel(combine, 0, leafs[i]) { assert leafs[i] in leafs; }
    var e := Entries(combine, leafs);
    var root := Root(combine, leafs);
    var top := EntriesLevel(combine, leafs, 0);
    var k := IndexIsLast(e, root);
    forall j | 0 <= j < |e| ensures !IsChild(e[j], root) {
      assert ChildrenBelow(combine, e[j], top);
      var l :| 0 <= l < top && AtLevel(combine, l, e[j].left) && AtLevel(combine, l, e[j].right);
      if IsChild(e[j], root) { OneLevel(combine, l, top, root); }
    }
  }

  /** A hash function broken enough for the endless case: everything combines into zero. */
  lemma EndlessTree()
    ensures RootIndexed((a: nat, b: nat) => 0, [0])
  {
    var zero := (a: nat, b: nat) => 0;
    var e := Entries(zero, [0]);
    assert Pad([0]) == [0, 0];
    assert Pairs(zero, [0, 0]) == [Entry(0, 0, 0)];
    assert e == [Entry(0, 0, 0)];
    assert e[..0] == [];
  }

  // ---- The built root is the root of a hash tree over the leafs ----

  function Level<H>(ts: seq<Tree<H>>): (up: seq<Tree<H>>)
    requires |ts| % 2 == 0
    ensures |up| == |ts| / 2
    ensures forall k :: 0 <= k < |up| ==> up[k] == Node(ts[2 * k], ts[2 * k + 1])
  {
    seq(|ts| / 2, k requires 0 <= k < |ts| / 2 => Node(ts[2 * k], ts[2 * k + 1]))
  }

  function TreeOver<H>(ts: seq<Tree<H>>): Tree<H>
    requires ts != []
    decreases |ts|
  {
    var up := Level(Pad(ts));
    if |up| == 1 then up[0] else TreeOver(up)
  }

  function Hashes<H>(combine: (H, H) -> H, ts: seq<Tree<H>>): (hs: seq<H>)
    ensures |hs| == |ts| && forall k :: 0 <= k < |ts| ==> hs[k] == HashOf(combine, ts[k])
  {
    seq(|ts|, k requires 0 <= k < |ts| => HashOf(combine, ts[k]))
  }

  lemma {:induction false} TreeOverHash<H>(combine: (H, H) -> H, ts: seq<Tree<H>>)
    requires ts != []
    ensures HashOf(combine, TreeOver(ts)) == Root(combine, Hashes(combine, ts))
    decreases |ts|
  {
    var hs := Hashes(combine, ts);
    var level := Pairs(combine, Pad(hs));
    var up := Level(Pad(ts));
    assert Hashes(combine, Pad(ts)) == Pad(hs);
    assert Hashes(combine, up) == Parents(level);
    if |level| == 1 {
      assert HashOf(combine, up[0]) == level[0].parent;
    } else {
      TreeOverHash(combine, up);
    }
  }

  lemma {:induction false} TreeOverLeaves<H(!new)>(ts: seq<Tree<H>>, h: H)
    requires ts != [] && h in Leaves(TreeOver(ts))
    ensures exists k :: 0 <= k < |ts| && h in Leaves(ts[k])
    decreases |ts|
  {
    var up := Level(Pad(ts));
    if |up| == 1 {
      LevelLeaf(ts, 0, h);
    } else {
      TreeOverLeaves(up, h);
      var j :| 0 <= j < |up| && h in Leaves(up[j]);
      LevelLeaf(ts, j, h);
    }
  }

  lemma LevelLeaf<H(!new)>(ts: seq<Tree<H>>, j: nat, h: H)
    requires ts != [] && j < |Level(Pad(ts))| && h in Leaves(Level(Pad(ts))[j])
    ensures exists k :: 0 <= k < |ts| && h in Leaves(ts[k])
  {
    var padded := Pad(ts);
    assert Level(padded)[j] == Node(padded[2 * j], padded[2 * j + 1]);
    var k := if h in Leaves(padded[2 * j]) then 2 * j else 2 * j + 1;
    var i := if k < |ts| then k else |ts| - 1;
    assert padded[k] == ts[i];
    assert h in Leaves(ts[i]);
  }

  function LeafTrees<H>(leafs: seq<H>): (ts: seq<Tree<H>>)
    ensures |ts| == |leafs| && forall k :: 0 <= k < |ts| ==> ts[k] == Leaf(leafs[k])
  {
    seq(|leafs|, k requires 0 <= k < |leafs| => Leaf(leafs[k]))
  }

  ghost predicate Provable<H(!new)>(combine: (H, H) -> H, root: H, x: H) {
    exists nodes :: nodes != [] && Climbs(combine, x, nodes, root)
  }

  lemma ProvableIsLeaf<H(!new)>(combine: (H, H) -> H, leafs: seq<H>, x: H, nodes: seq<H>)
    requires leafs != [] && !Collides(combine) && !Image(combine, x) && forall h :: h in leafs ==> !Image(combine, h)
    requires nodes != [] && Climbs(combine, x, nodes, Root(combine, leafs))
    ensures x in leafs
  {
    var ts := LeafTrees(leafs);
    var t := TreeOver(ts);
    TreeOverHash(combine, ts);
    assert Hashes(combine, ts) == leafs;
    forall h | h in Leaves(t) ensures h in leafs {
      TreeOverLeaves(ts, h);
      var k :| 0 <= k < |ts| && h in Leaves(ts[k]);
      assert h == leafs[k];
    }
    var path := VerifiedIsIn(combine, t, MerkleProof(Some(Root(combine, leafs)), Some(x), nodes));
  }

  /** Membership is what proofs prove: for a built root, a hash that is no combination has a verified proof
      of at least one pair exactly when it is one of the leafs. */
  lemma ProvableIffLeaf<H(!new)>(combine: (H, H) -> H, leafs: seq<H>, x: H)
    requires leafs != [] && !Collides(combine) && !Image(combine, x) && forall h :: h in leafs ==> !Image(combine, h)
    ensures Provable(combine, Root(combine, leafs), x) <==> x in leafs
  {
    forall nodes | nodes != [] && Climbs(combine, x, nodes, Root(combine, leafs)) ensures x in leafs {
      ProvableIsLeaf(combine, leafs, x, nodes);
    }
    if x in leafs {
      var nodes := LeafClimbs(combine, leafs, x);
      assert nodes != [] && Climbs(combine, x, nodes, Root(combine, leafs));
    }
  }

  /** The entries of the index lead every leaf to the root, collisions or not. */
  lemma LeafClimbs<H>(combine: (H, H) -> H, leafs: seq<H>, x: H) returns (nodes: seq<H>)
    requires x in leafs
    ensures nodes != [] && Climbs(combine, x, nodes, Root(combine, leafs))
  {
    var e := Entries(combine, leafs);
    var i :| 0 <= i < |leafs| && leafs[i] == x;
    LeafIsChild(combine, leafs, i);
    var j :| 0 <= j < |e| && IsChild(e[j], x);
    var up := EntryClimbs(combine, leafs, j);
    EntriesCombine(combine, leafs);
    nodes := [e[j].left, e[j].right] + up;
    assert nodes[2..] == up;
  }

  lemma {:induction false} EntryClimbs<H>(combine: (H, H) -> H, leafs: seq<H>, j: nat) returns (nodes: seq<H>)
    requires leafs != [] && j < |Entries(combine, leafs)|
    ensures Climbs(combine, Entries(combine, leafs)[j].parent, nodes, Root(combine, leafs))
    decreases |Entries(combine, leafs)| - j
  {
    var e := Entries(combine, leafs);
    if j == |e| - 1 {
      nodes := [];
    } else {
      EntriesLinked(combine, leafs);
      EntriesCombine(combine, leafs);
      assert HasChild(e, j + 1, e[j].parent);
      var k :| 0 <= k < |e| && j + 1 <= k && IsChild(e[k], e[j].parent);
      var up := EntryClimbs(combine, leafs, k);
      nodes := [e[k].left, e[k].right] + up;
      assert nodes[2..] == up;
    }
  }
}
