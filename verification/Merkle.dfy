/** Merkle trees: the layer-by-layer builders of the offline client and of merkle.rs, the
    on-chain proof check, and what ties them together.  Nodes are values of any type `T`
    and `h(l, r)` is the hash of the two nodes' concatenated bytes.  A layer of depth `d`
    has 2^d nodes. */
module Merkle {
  import opened ByteStrings

  type PairHash<!T> = (T, T) -> T

  /** Two different pairs of children with one parent. */
  ghost predicate PairCollision<T>(h: PairHash<T>, a: (T, T), b: (T, T)) {
    a != b && h(a.0, a.1) == h(b.0, b.1)
  }

  /** A hash output as a digest; the identity for hashes with 32-byte outputs. */
  function AsDigest(b: Bytes): Digest {
    if |b| == 32 then b else seq(32, i => 0)
  }

  /** The pair hash of a byte hash: concatenate and hash. */
  function Concatenating(h: Hash): PairHash<Digest> {
    (l: Digest, r: Digest) => AsDigest(h(l + r))
  }

  /** On digests, a pair collision is a collision of the byte hash. */
  lemma PairCollisionIsCollision(h: Hash, a: (Digest, Digest), b: (Digest, Digest))
    requires OutputsHave(h, 32)
    requires PairCollision<Digest>(Concatenating(h), a, b)
    ensures Collision(h, a.0 + a.1, b.0 + b.1)
  {
    var x, y := a.0 + a.1, b.0 + b.1;
    assert x[..32] == a.0 && x[32..] == a.1 && y[..32] == b.0 && y[32..] == b.1;
  }

  // ---- the reference tree ----

  /** The root, top down: the hash of the two half-trees. */
  function TreeRoot<T>(h: PairHash<T>, leaves: seq<T>, d: nat): T
    requires |leaves| == Exp2(d)
  {
    if d == 0 then leaves[0]
    else
      var m := Exp2(d - 1);
      h(TreeRoot(h, leaves[..m], d - 1), TreeRoot(h, leaves[m..], d - 1))
  }

  /** One layer up: hash neighbouring pairs. */
  function NextLayer<T>(h: PairHash<T>, layer: seq<T>): (next: seq<T>)
    requires |layer| % 2 == 0
    ensures |next| == |layer| / 2
  {
    seq(|layer| / 2, i requires 0 <= i < |layer| / 2 => h(layer[2 * i], layer[2 * i + 1]))
  }

  /** The root, bottom up: the node left after hashing layer after layer. */
  function Root<T>(h: PairHash<T>, layer: seq<T>, d: nat): T
    requires |layer| == Exp2(d)
    decreases d
  {
    if d == 0 then layer[0] else Root(h, NextLayer(h, layer), d - 1)
  }

  lemma RootStep<T>(h: PairHash<T>, layer: seq<T>, d: nat)
    requires |layer| == Exp2(d)
    ensures d == 0 ==> |layer| == 1 && Root(h, layer, d) == layer[0]
    ensures d > 0 ==> |layer| == 2 * Exp2(d - 1) && Root(h, layer, d) == Root(h, NextLayer(h, layer), d - 1)
  {
  }

  lemma NextLayerHalves<T>(h: PairHash<T>, left: seq<T>, right: seq<T>)
    requires |left| == |right| && |left| % 2 == 0
    ensures NextLayer(h, left + right) == NextLayer(h, left) + NextLayer(h, right)
  {
    var both := NextLayer(h, left + right);
    var m := |left| / 2;
    forall i | 0 <= i < m ensures both[m + i] == NextLayer(h, right)[i] {
      assert (left + right)[2 * (m + i)] == right[2 * i];
      assert (left + right)[2 * (m + i) + 1] == right[2 * i + 1];
    }
  }

  lemma {:induction false} RootOfHalves<T>(h: PairHash<T>, left: seq<T>, right: seq<T>, d: nat)
    requires |left| == |right| == Exp2(d)
    ensures Root(h, left + right, d + 1) == h(Root(h, left, d), Root(h, right, d))
    decreases d
  {
    var both := left + right;
    if d == 0 {
      var next := NextLayer(h, both);
      assert both[0] == left[0] && both[1] == right[0];
      assert Root(h, both, 1) == Root(h, next, 0) == next[0];
    } else {
      NextLayerHalves(h, left, right);
      RootOfHalves(h, NextLayer(h, left), NextLayer(h, right), d - 1);
    }
  }

  lemma TreeRootOfLeaf<T>(h: PairHash<T>, layer: seq<T>)
    requires |layer| == Exp2(0)
    ensures |layer| == 1 && TreeRoot(h, layer, 0) == layer[0]
  {
  }

  lemma TreeRootOfHalves<T>(h: PairHash<T>, left: seq<T>, right: seq<T>, d: nat)
    requires |left| == |right| == Exp2(d)
    ensures TreeRoot(h, left + right, d + 1) == h(TreeRoot(h, left, d), TreeRoot(h, right, d))
  {
    assert (left + right)[..Exp2(d)] == left && (left + right)[Exp2(d)..] == right;
  }

  /** Layer by layer is the same tree as half by half. */
  lemma {:induction false} RootIsTreeRoot<T>(h: PairHash<T>, layer: seq<T>, d: nat)
    requires |layer| == Exp2(d)
    ensures Root(h, layer, d) == TreeRoot(h, layer, d)
    decreases d
  {
    hide Root, TreeRoot, Exp2;
    RootStep(h, layer, d);
    if d == 0 {
      TreeRootOfLeaf(h, layer);
    } else {
      var m := Exp2(d - 1);
      var left, right := layer[..m], layer[m..];
      assert layer == left + right && |left| == |right| == m;
      RootOfHalves(h, left, right, d - 1);
      TreeRootOfHalves(h, left, right, d - 1);
      RootIsTreeRoot(h, left, d - 1);
      RootIsTreeRoot(h, right, d - 1);
    }
  }

  function SiblingIndex(idx: nat): nat {
    if idx % 2 == 0 then idx + 1 else idx - 1
  }

  /** The siblings from leaf to root. */
  function Path<T>(h: PairHash<T>, layer: seq<T>, d: nat, idx: nat): (proof: seq<T>)
    requires |layer| == Exp2(d) && idx < |layer|
    ensures |proof| == d
    decreases d
  {
    if d == 0 then []
    else [layer[SiblingIndex(idx)]] + Path(h, NextLayer(h, layer), d - 1, idx / 2)
  }

  lemma PathStep<T>(h: PairHash<T>, layer: seq<T>, d: nat, idx: nat)
    requires |layer| == Exp2(d) && idx < |layer|
    ensures d == 0 ==> |layer| == 1 && Path(h, layer, d, idx) == []
    ensures d > 0 ==>
              && |layer| == 2 * Exp2(d - 1) && idx / 2 < Exp2(d - 1) && SiblingIndex(idx) < |layer|
              && Path(h, layer, d, idx) == [layer[SiblingIndex(idx)]] + Path(h, NextLayer(h, layer), d - 1, idx / 2)
  {
  }

  // ---- the on-chain check ----

  function Parent<T>(h: PairHash<T>, node: T, idx: nat, sibling: T): T {
    if idx % 2 == 0 then h(node, sibling) else h(sibling, node)
  }

  /** The value reached from `node` at position `idx` by following `proof`. */
  function Climb<T>(h: PairHash<T>, node: T, idx: nat, proof: seq<T>): T
    decreases |proof|
  {
    if proof == [] then node
    else Climb(h, Parent(h, node, idx, proof[0]), idx / 2, proof[1..])
  }

  lemma ClimbEmpty<T>(h: PairHash<T>, node: T, idx: nat)
    ensures Climb(h, node, idx, []) == node
  {
  }

  lemma ClimbStep<T>(h: PairHash<T>, node: T, idx: nat, sibling: T, rest: seq<T>)
    ensures Climb(h, node, idx, [sibling] + rest) == Climb(h, Parent(h, node, idx, sibling), idx / 2, rest)
  {
    assert ([sibling] + rest)[1..] == rest;
  }

  lemma ParentStep<T>(h: PairHash<T>, layer: seq<T>, idx: nat)
    requires |layer| % 2 == 0 && idx < |layer|
    ensures Parent(h, layer[idx], idx, layer[SiblingIndex(idx)]) == NextLayer(h, layer)[idx / 2]
  {
  }

  method VerifyMerkleProof<T(==)>(h: PairHash<T>, leaf: T, leafIndex: nat, proof: seq<T>, expectedRoot: T)
    returns (ok: bool)
    ensures ok <==> Climb(h, leaf, leafIndex, proof) == expectedRoot
  {
    var current, idx: nat := leaf, leafIndex;
    for i := 0 to |proof|
      invariant Climb(h, leaf, leafIndex, proof) == Climb(h, current, idx, proof[i..])
    {
      var sibling := proof[i];
      assert proof[i..] == [sibling] + proof[i + 1..];
      ClimbStep(h, current, idx, sibling, proof[i + 1..]);
      if idx % 2 == 0 {
        current := h(current, sibling);
      } else {
        current := h(sibling, current);
      }
      idx := idx / 2;
    }
    ok := current == expectedRoot;
  }

  /** Completeness: the path of a leaf leads from that leaf to the root. */
  lemma {:induction false} PathReachesRoot<T>(h: PairHash<T>, layer: seq<T>, d: nat, idx: nat)
    requires |layer| == Exp2(d) && idx < |layer|
    ensures Climb(h, layer[idx], idx, Path(h, layer, d, idx)) == Root(h, layer, d)
    decreases d
  {
    hide Root, Path, Climb, NextLayer, Exp2;
    PathStep(h, layer, d, idx);
    RootStep(h, layer, d);
    if d == 0 {
      ClimbEmpty(h, layer[idx], idx);
    } else {
      var next := NextLayer(h, layer);
      PathReachesRoot(h, next, d - 1, idx / 2);
      ParentStep(h, layer, idx);
      ClimbStep(h, layer[idx], idx, layer[SiblingIndex(idx)], Path(h, next, d - 1, idx / 2));
    }
  }

  /** Binding: whatever is accepted at a position below the number of leaves, with a proof
      of full length, is the tree's own leaf there; otherwise a collision is returned. */
  lemma {:induction false} AcceptedLeafIsOwn<T>(h: PairHash<T>, layer: seq<T>, d: nat, node: T, idx: nat, proof: seq<T>)
    returns (a: (T, T), b: (T, T))
    requires |proof| == d && |layer| == Exp2(d) && idx < |layer|
    requires Climb(h, node, idx, proof) == Root(h, layer, d)
    ensures node == layer[idx] || PairCollision(h, a, b)
    decreases d
  {
    hide Root, Climb, NextLayer, Exp2;
    RootStep(h, layer, d);
    if d == 0 {
      assert proof == [];
      ClimbEmpty(h, node, idx);
      a, b := (node, node), (node, node);
    } else {
      var own := layer[SiblingIndex(idx)];
      var up := Parent(h, node, idx, proof[0]);
      assert proof == [proof[0]] + proof[1..];
      ClimbStep(h, node, idx, proof[0], proof[1..]);
      a, b := AcceptedLeafIsOwn(h, NextLayer(h, layer), d - 1, up, idx / 2, proof[1..]);
      ParentStep(h, layer, idx);
      if up == NextLayer(h, layer)[idx / 2] {
        a := if idx % 2 == 0 then (node, proof[0]) else (proof[0], node);
        b := if idx % 2 == 0 then (layer[idx], own) else (own, layer[idx]);
      }
    }
  }

  /** Two nodes that climb to one value from the same position are one node, or a collision is
      returned. */
  lemma {:induction false} SamePositionSameNode<T>(h: PairHash<T>, x: T, y: T, idx: nat, p: seq<T>, q: seq<T>)
    returns (a: (T, T), b: (T, T))
    requires |p| == |q| && Climb(h, x, idx, p) == Climb(h, y, idx, q)
    ensures x == y || PairCollision(h, a, b)
    decreases |p|
  {
    hide Climb;
    if p == [] {
      assert q == [];
      ClimbEmpty(h, x, idx);
      ClimbEmpty(h, y, idx);
      a, b := (x, x), (x, x);
    } else {
      assert p == [p[0]] + p[1..] && q == [q[0]] + q[1..];
      ClimbStep(h, x, idx, p[0], p[1..]);
      ClimbStep(h, y, idx, q[0], q[1..]);
      a, b := SamePositionSameNode(h, Parent(h, x, idx, p[0]), Parent(h, y, idx, q[0]), idx / 2, p[1..], q[1..]);
      if Parent(h, x, idx, p[0]) == Parent(h, y, idx, q[0]) {
        a := if idx % 2 == 0 then (x, p[0]) else (p[0], x);
        b := if idx % 2 == 0 then (y, q[0]) else (q[0], y);
      }
    }
  }

  // ---- padding ----

  /** The least depth of a tree that holds `n` leaves. */
  function Depth(n: nat): (d: nat)
    requires n >= 1
    ensures n <= Exp2(d) < 2 * n
  {
    if n == 1 then 0 else 1 + Depth((n + 1) / 2)
  }

  lemma {:induction false} DepthIsLeast(n: nat, q: nat)
    requires 1 <= n <= q && IsPowerOfTwo(q)
    ensures Exp2(Depth(n)) <= q
    decreases n
  {
    if n > 1 {
      DepthIsLeast((n + 1) / 2, q / 2);
    }
  }

  /** Zero nodes up to the next power of two. */
  function Padded<T>(zero: T, leaves: seq<T>): (p: seq<T>)
    requires |leaves| >= 1
    ensures |p| == Exp2(Depth(|leaves|)) && |leaves| <= |p| && p[..|leaves|] == leaves
  {
    leaves + seq(Exp2(Depth(|leaves|)) - |leaves|, i => zero)
  }

  /** The leaves come first, nothing but zero nodes after them, and their number is the least power
      of two that will do. */
  lemma PaddingIsLeast<T>(zero: T, leaves: seq<T>)
    requires |leaves| >= 1
    ensures var p := Padded(zero, leaves);
            && p[..|leaves|] == leaves && (forall i :: |leaves| <= i < |p| ==> p[i] == zero)
            && IsPowerOfTwo(|p|) && (forall m: nat :: m >= |leaves| && IsPowerOfTwo(m) ==> m >= |p|)
  {
    Exp2IsPowerOfTwo(Depth(|leaves|));
    forall m: nat | m >= |leaves| && IsPowerOfTwo(m) ensures m >= Exp2(Depth(|leaves|)) {
      DepthIsLeast(|leaves|, m);
    }
  }

  /** Reaching a power of two is reaching the padded length. */
  lemma MaskTestFindsPaddedLength(n: nat, len: nat)
    requires 1 <= n <= len <= Exp2(Depth(n))
    ensures BitAnd(len, len - 1) == 0 <==> len == Exp2(Depth(n))
  {
    PowerOfTwoTest(len);
    Exp2IsPowerOfTwo(Depth(n));
    if IsPowerOfTwo(len) {
      DepthIsLeast(n, len);
    }
  }

  /** The padding loop of both languages: push zero nodes until the mask test succeeds. */
  method PadLeaves<T>(zero: T, leaves: seq<T>) returns (padded: seq<T>)
    requires |leaves| >= 1
    ensures padded == Padded(zero, leaves)
  {
    padded := leaves;
    ghost var target := Exp2(Depth(|leaves|));
    MaskTestFindsPaddedLength(|leaves|, |padded|);
    while BitAnd(|padded|, |padded| - 1) != 0
      invariant |leaves| <= |padded| <= target
      invariant padded == leaves + seq(|padded| - |leaves|, i => zero)
      invariant BitAnd(|padded|, |padded| - 1) == 0 <==> |padded| == target
      decreases target - |padded|
    {
      padded := padded + [zero];
      MaskTestFindsPaddedLength(|leaves|, |padded|);
    }
  }

  // ---- the offline builder ----

  /** All layers, leaves first. */
  function Layers<T>(h: PairHash<T>, layer: seq<T>, d: nat): (ls: seq<seq<T>>)
    requires |layer| == Exp2(d)
    ensures |ls| == d + 1 && ls[0] == layer
    decreases d
  {
    if d == 0 then [layer] else [layer] + Layers(h, NextLayer(h, layer), d - 1)
  }

  lemma LayersStep<T>(h: PairHash<T>, layer: seq<T>, d: nat)
    requires |layer| == Exp2(d)
    ensures d == 0 ==> Layers(h, layer, d) == [layer]
    ensures d > 0 ==> |layer| == 2 * Exp2(d - 1)
                      && Layers(h, layer, d) == [layer] + Layers(h, NextLayer(h, layer), d - 1)
  {
  }

  method HashLayer<T>(h: PairHash<T>, layer: seq<T>) returns (next: seq<T>)
    requires |layer| % 2 == 0
    ensures next == NextLayer(h, layer)
  {
    next := [];
    var i := 0;
    while i < |layer|
      invariant i % 2 == 0 && i <= |layer|
      invariant next == NextLayer(h, layer)[..i / 2]
    {
      next := next + [h(layer[i], layer[i + 1])];
      i := i + 2;
    }
  }

  method BuildLayers<T>(h: PairHash<T>, leaves: seq<T>, ghost d: nat) returns (layers: seq<seq<T>>)
    requires |leaves| == Exp2(d)
    ensures layers == Layers(h, leaves, d)
    ensures layers[d] == [Root(h, leaves, d)]
  {
    hide Root, Layers, NextLayer, Exp2;
    layers := [leaves];
    var last := leaves;
    ghost var e: nat := d;
    while |last| > 1
      invariant e <= d && |last| == Exp2(e)
      invariant |layers| == d - e + 1 && layers[d - e] == last
      invariant Layers(h, leaves, d) == layers[..d - e] + Layers(h, last, e)
      invariant Root(h, last, e) == Root(h, leaves, d)
      decreases e
    {
      OneNodeIsDepthZero(e);
      LayersStep(h, last, e);
      RootStep(h, last, e);
      ghost var before, above := layers, last;
      last := HashLayer(h, last);
      layers := layers + [last];
      e := e - 1;
      assert layers[..d - e] == before == before[..d - e - 1] + [above];
    }
    OneNodeIsDepthZero(e);
    LayersStep(h, last, e);
    RootStep(h, last, e);
    assert layers == layers[..d] + [last];
    assert last == [Root(h, last, 0)];
  }

  lemma OneNodeIsDepthZero(d: nat)
    ensures Exp2(d) <= 1 <==> d == 0
  {
  }

  /** Reading one sibling per layer below the root. */
  method ProofFromLayers<T>(h: PairHash<T>, layers: seq<seq<T>>, leafIdx: nat, ghost d: nat) returns (proof: seq<T>)
    requires |layers| == d + 1 && |layers[0]| == Exp2(d) && layers == Layers(h, layers[0], d)
    requires leafIdx < |layers[0]|
    ensures proof == Path(h, layers[0], d, leafIdx)
  {
    hide Path, Layers, NextLayer, Exp2;
    proof := [];
    var idx: nat := leafIdx;
    for layerIdx := 0 to |layers| - 1
      invariant |layers[layerIdx]| == Exp2(d - layerIdx) && idx < |layers[layerIdx]|
      invariant layers[layerIdx..] == Layers(h, layers[layerIdx], d - layerIdx)
      invariant Path(h, layers[0], d, leafIdx) == proof + Path(h, layers[layerIdx], d - layerIdx, idx)
    {
      ghost var layer, e := layers[layerIdx], d - layerIdx;
      LayersStep(h, layer, e);
      PathStep(h, layer, e, idx);
      ghost var rest := Layers(h, NextLayer(h, layer), e - 1);
      assert layers[layerIdx..] == [layer] + rest;
      assert layers[layerIdx + 1..] == layers[layerIdx..][1..] == rest;
      assert layers[layerIdx + 1] == rest[0];
      proof := proof + [layers[layerIdx][SiblingIndex(idx)]];
      idx := idx / 2;
    }
    PathStep(h, layers[d], 0, idx);
  }

  /** buildMerkleTree: no leaves give no root; otherwise the root of the padded tree and one
      path per leaf. */
  method BuildMerkleTree<T>(h: PairHash<T>, zero: T, leaves: seq<T>) returns (root: Option<T>, proofs: seq<seq<T>>)
    ensures |leaves| == 0 ==> root == None
    ensures |leaves| != 0 ==> root == Some(TreeRoot(h, Padded(zero, leaves), Depth(|leaves|)))
    ensures |proofs| == |leaves|
    ensures forall i :: 0 <= i < |leaves| ==> proofs[i] == Path(h, Padded(zero, leaves), Depth(|leaves|), i)
  {
    if |leaves| == 0 {
      return None, [];
    }
    var padded := PadLeaves(zero, leaves);
    ghost var d := Depth(|leaves|);
    var layers := BuildLayers(h, padded, d);
    RootIsTreeRoot(h, padded, d);
    root := Some(layers[|layers| - 1][0]);
    proofs := ProofsForLeaves(h, layers, |leaves|, d);
  }

  method ProofsForLeaves<T>(h: PairHash<T>, layers: seq<seq<T>>, n: nat, ghost d: nat) returns (proofs: seq<seq<T>>)
    requires |layers| == d + 1 && |layers[0]| == Exp2(d) && layers == Layers(h, layers[0], d)
    requires n <= |layers[0]|
    ensures |proofs| == n
    ensures forall i :: 0 <= i < n ==> proofs[i] == Path(h, layers[0], d, i)
  {
    hide Path, Layers, Exp2;
    proofs := [];
    for leafIdx := 0 to n
      invariant |proofs| == leafIdx
      invariant forall i :: 0 <= i < leafIdx ==> proofs[i] == Path(h, layers[0], d, i)
    {
      var proof := ProofFromLayers(h, layers, leafIdx, d);
      proofs := proofs + [proof];
    }
  }

  // ---- the helpers of merkle.rs ----

  lemma SingleLeafIsRoot<T>(h: PairHash<T>, zero: T, leaf: T)
    ensures TreeRoot(h, Padded(zero, [leaf]), Depth(1)) == leaf
  {
    assert Padded(zero, [leaf]) == [leaf];
  }

  /** Hash layer after layer, keeping only the last one. */
  method FoldLayers<T>(h: PairHash<T>, leaves: seq<T>, ghost d: nat) returns (root: T)
    requires |leaves| == Exp2(d)
    ensures root == Root(h, leaves, d)
  {
    hide Root, NextLayer, Exp2;
    var layer := leaves;
    ghost var e: nat := d;
    OneNodeIsDepthZero(e);
    while |layer| > 1
      invariant |layer| == Exp2(e) && Root(h, layer, e) == Root(h, leaves, d)
      decreases e
    {
      OneNodeIsDepthZero(e);
      RootStep(h, layer, e);
      layer := HashLayer(h, layer);
      e := e - 1;
    }
    OneNodeIsDepthZero(e);
    RootStep(h, layer, e);
    root := layer[0];
  }

  /** compute_merkle_root: a single leaf is its own root.  None models the panic on no leaves. */
  method ComputeMerkleRoot<T>(h: PairHash<T>, zero: T, leaves: seq<T>) returns (root: Option<T>)
    ensures |leaves| == 0 ==> root == None
    ensures |leaves| != 0 ==> root == Some(TreeRoot(h, Padded(zero, leaves), Depth(|leaves|)))
  {
    hide Root, TreeRoot, Padded, Depth, Exp2;
    if |leaves| == 0 {
      return None;
    }
    if |leaves| == 1 {
      SingleLeafIsRoot(h, zero, leaves[0]);
      assert leaves == [leaves[0]];
      return Some(leaves[0]);
    }
    var layer := PadLeaves(zero, leaves);
    RootIsTreeRoot(h, layer, Depth(|leaves|));
    var top := FoldLayers(h, layer, Depth(|leaves|));
    root := Some(top);
  }

  /** generate_merkle_proof pads to at least two leaves. */
  function ProofDepth(n: nat): nat
    requires n >= 1
  {
    if n == 1 then 1 else Depth(n)
  }

  function PaddedForProof<T>(zero: T, leaves: seq<T>): (p: seq<T>)
    requires |leaves| >= 1
    ensures |p| == Exp2(ProofDepth(|leaves|)) && |leaves| <= |p|
  {
    assert Exp2(1) == 2 * Exp2(0);
    if |leaves| == 1 then leaves + [zero] else Padded(zero, leaves)
  }

  /** The loop that reads one sibling per layer while hashing the layers up. */
  method ClimbLayers<T>(h: PairHash<T>, zero: T, leaves: seq<T>, index: nat, ghost depth: nat) returns (proof: seq<T>)
    requires |leaves| == Exp2(depth) && index < |leaves|
    ensures proof == Path(h, leaves, depth, index)
  {
    hide Path, NextLayer, Exp2;
    proof := [];
    var layer, idx: nat := leaves, index;
    ghost var d: nat := depth;
    OneNodeIsDepthZero(d);
    while |layer| > 1
      invariant |layer| == Exp2(d) && idx < |layer|
      invariant Path(h, leaves, depth, index) == proof + Path(h, layer, d, idx)
      decreases d
    {
      OneNodeIsDepthZero(d);
      PathStep(h, layer, d, idx);
      var siblingIdx := SiblingIndex(idx);
      proof := proof + [if siblingIdx < |layer| then layer[siblingIdx] else zero];
      layer := HashLayer(h, layer);
      idx := idx / 2;
      d := d - 1;
    }
    OneNodeIsDepthZero(d);
    PathStep(h, layer, d, idx);
  }

  lemma PairOfLeaves()
    ensures Exp2(1) == 2
  {
  }

  method GenerateMerkleProof<T>(h: PairHash<T>, zero: T, leaves: seq<T>, index: nat) returns (proof: seq<T>)
    requires index < |leaves|
    ensures proof == Path(h, PaddedForProof(zero, leaves), ProofDepth(|leaves|), index)
  {
    hide Path, NextLayer;
    PairOfLeaves();
    var layer := leaves;
    if |leaves| == 1 {
      layer := layer + [zero];
    } else {
      layer := PadLeaves(zero, leaves);
    }
    proof := ClimbLayers(h, zero, layer, index, ProofDepth(|leaves|));
  }

  /** A proof from generate_merkle_proof leads to the root of compute_merkle_root exactly
      when there are at least two leaves: on one leaf the two helpers pad differently, and
      only a hash that maps that leaf and a zero node back to the leaf would hide it. */
  lemma RustHelpersAgree<T>(h: PairHash<T>, zero: T, leaves: seq<T>, index: nat)
    requires index < |leaves|
    ensures Climb(h, leaves[index], index, Path(h, PaddedForProof(zero, leaves), ProofDepth(|leaves|), index))
         == TreeRoot(h, Padded(zero, leaves), Depth(|leaves|))
       <==> |leaves| >= 2 || h(leaves[0], zero) == leaves[0]
  {
    var padded := PaddedForProof(zero, leaves);
    PathReachesRoot(h, padded, ProofDepth(|leaves|), index);
    RootIsTreeRoot(h, Padded(zero, leaves), Depth(|leaves|));
    if |leaves| == 1 {
      var next := NextLayer(h, padded);
      assert Padded(zero, leaves) == leaves;
      assert Root(h, padded, 1) == Root(h, next, 0) == h(leaves[0], zero);
      assert padded[0] == leaves[0];
    } else {
      assert padded[index] == padded[..|leaves|][index];
    }
  }
}
