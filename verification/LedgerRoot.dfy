/** The anchored ledger root of gateway.ts: attestation digests sorted by id, folded level
    by level with an odd node paired with itself, and written into Bitcoin together with
    the number of leaves. */
module LedgerRoot {
  import opened ByteStrings
  import opened Merkle

  datatype Attestation = Attestation(id: string, digest: Digest)

  // ---- the order of ids ----

  /** JavaScript's `<` on strings. */
  predicate IdLess(a: string, b: string) {
    b != [] && (a == [] || a[0] < b[0] || (a[0] == b[0] && IdLess(a[1..], b[1..])))
  }

  /** Up to `i` the two are alike, and there the first one ends or has the smaller character. */
  predicate DecidesAt(a: string, b: string, i: nat) {
    i <= |a| && i < |b| && (forall j :: 0 <= j < i ==> a[j] == b[j]) && (i == |a| || a[i] < b[i])
  }

  /** The first difference decides, and a proper prefix comes first. */
  lemma IdOrderIsLexicographic(a: string, b: string)
    ensures IdLess(a, b) <==> exists i: nat :: DecidesAt(a, b, i)
  {
    if IdLess(a, b) {
      var i := LessIsDecided(a, b);
    }
    if i: nat :| DecidesAt(a, b, i) {
      DecidedIsLess(a, b, i);
    }
  }

  lemma {:induction false} LessIsDecided(a: string, b: string) returns (i: nat)
    requires IdLess(a, b)
    ensures DecidesAt(a, b, i)
  {
    i := 0;
    if a != [] && a[0] == b[0] {
      var i' := LessIsDecided(a[1..], b[1..]);
      i := i' + 1;
    }
  }

  lemma {:induction false} DecidedIsLess(a: string, b: string, i: nat)
    requires DecidesAt(a, b, i)
    ensures IdLess(a, b)
  {
    if i > 0 {
      DecidedIsLess(a[1..], b[1..], i - 1);
    }
  }

  lemma {:induction false} IdOrderIrreflexive(a: string)
    ensures !IdLess(a, a)
  {
    if a != [] {
      IdOrderIrreflexive(a[1..]);
    }
  }

  lemma {:induction false} IdOrderTotal(a: string, b: string)
    ensures a == b || IdLess(a, b) || IdLess(b, a)
    ensures !(IdLess(a, b) && IdLess(b, a)) && !IdLess(a, a)
    decreases |a| + |b|
  {
    if a != [] {
      IdOrderIrreflexive(a);
      if b != [] && a[0] == b[0] {
        IdOrderTotal(a[1..], b[1..]);
        assert a == [a[0]] + a[1..] && b == [b[0]] + b[1..];
      }
    }
  }

  lemma {:induction false} IdOrderTransitive(a: string, b: string, c: string)
    requires IdLess(a, b) && IdLess(b, c)
    ensures IdLess(a, c)
    decreases |a|
  {
    if a != [] && a[0] == b[0] && b[0] == c[0] {
      IdOrderTransitive(a[1..], b[1..], c[1..]);
    }
  }

  // ---- sorting ----

  ghost predicate DistinctIds(s: seq<Attestation>) {
    forall i, j :: 0 <= i < j < |s| ==> s[i].id != s[j].id
  }

  ghost predicate SortedById(s: seq<Attestation>) {
    forall i, j :: 0 <= i < j < |s| ==> IdLess(s[i].id, s[j].id)
  }

  function Insert(a: Attestation, s: seq<Attestation>): (r: seq<Attestation>)
    ensures multiset(r) == multiset(s) + multiset{a}
  {
    if s == [] then [a]
    else
      assert s == [s[0]] + s[1..];
      if IdLess(a.id, s[0].id) then [a] + s
      else [s[0]] + Insert(a, s[1..])
  }

  /** The list in ascending id order. */
  function SortById(s: seq<Attestation>): (r: seq<Attestation>)
    ensures multiset(r) == multiset(s)
  {
    if s == [] then []
    else
      assert s == [s[0]] + s[1..];
      Insert(s[0], SortById(s[1..]))
  }

  lemma InsertedFrom(a: Attestation, s: seq<Attestation>, j: nat)
    requires j < |Insert(a, s)|
    ensures Insert(a, s)[j] == a || exists k :: 0 <= k < |s| && s[k] == Insert(a, s)[j]
  {
    assert Insert(a, s)[j] in multiset(Insert(a, s));
    if Insert(a, s)[j] != a {
      assert Insert(a, s)[j] in multiset(s);
    }
  }

  lemma {:induction false} InsertKeepsSorted(a: Attestation, s: seq<Attestation>)
    requires SortedById(s)
    requires forall i :: 0 <= i < |s| ==> s[i].id != a.id
    ensures SortedById(Insert(a, s))
    decreases |s|
  {
    if s != [] {
      IdOrderTotal(a.id, s[0].id);
      if IdLess(a.id, s[0].id) {
        assert Insert(a, s) == [a] + s;
        forall j | 0 < j < |s| ensures IdLess(a.id, s[j].id) {
          IdOrderTransitive(a.id, s[0].id, s[j].id);
        }
      } else {
        var rest := Insert(a, s[1..]);
        InsertKeepsSorted(a, s[1..]);
        assert Insert(a, s) == [s[0]] + rest;
        forall j | 0 <= j < |rest| ensures IdLess(s[0].id, rest[j].id) {
          InsertedFrom(a, s[1..], j);
        }
      }
    }
  }

  lemma {:induction false} SortByIdSorts(s: seq<Attestation>)
    requires DistinctIds(s)
    ensures SortedById(SortById(s))
  {
    if s != [] {
      var rest := SortById(s[1..]);
      SortByIdSorts(s[1..]);
      forall i | 0 <= i < |rest| ensures rest[i].id != s[0].id {
        assert rest[i] in multiset(s[1..]);
        var k :| 0 <= k < |s[1..]| && s[1..][k] == rest[i];
        assert s[k + 1] == rest[i];
      }
      InsertKeepsSorted(s[0], rest);
    }
  }

  /** The least element of a sorted list is its head. */
  lemma SortedHead(s: seq<Attestation>, x: Attestation)
    requires SortedById(s) && x in multiset(s)
    ensures s != [] && (x == s[0] || IdLess(s[0].id, x.id))
  {
    var k :| 0 <= k < |s| && s[k] == x;
  }

  lemma SameHead(a: seq<Attestation>, b: seq<Attestation>)
    requires SortedById(a) && SortedById(b) && multiset(a) == multiset(b) && a != [] && b != []
    ensures a[0] == b[0]
  {
    assert a[0] in multiset(a) && b[0] in multiset(b);
    SortedHead(b, a[0]);
    SortedHead(a, b[0]);
    IdOrderTotal(a[0].id, b[0].id);
  }

  lemma DropHead(a: seq<Attestation>)
    requires a != []
    ensures multiset(a[1..]) == multiset(a) - multiset{a[0]}
  {
    assert a == [a[0]] + a[1..];
  }

  /** A sorted list is determined by its contents. */
  lemma {:induction false} SortedIsUnique(a: seq<Attestation>, b: seq<Attestation>)
    requires SortedById(a) && SortedById(b) && multiset(a) == multiset(b)
    ensures a == b
    decreases |a|
  {
    assert |a| == |multiset(a)| == |multiset(b)| == |b|;
    if a == [] {
    } else {
      SameHead(a, b);
      DropHead(a);
      DropHead(b);
      SortedIsUnique(a[1..], b[1..]);
      assert a == [a[0]] + a[1..] && b == [b[0]] + b[1..];
    }
  }

  // ---- the fold ----

  /** One level up; `level[i + 1] ?? level[i]` pairs an odd node with itself. */
  function LevelUp<T>(h: PairHash<T>, level: seq<T>): (next: seq<T>)
    ensures |next| == (|level| + 1) / 2
  {
    seq((|level| + 1) / 2, i requires 0 <= i < (|level| + 1) / 2 =>
      h(level[2 * i], if 2 * i + 1 < |level| then level[2 * i + 1] else level[2 * i]))
  }

  function Fold<T>(h: PairHash<T>, level: seq<T>): T
    requires |level| >= 1
    decreases |level|
  {
    if |level| == 1 then level[0] else Fold(h, LevelUp(h, level))
  }

  lemma FoldStep<T>(h: PairHash<T>, level: seq<T>)
    requires |level| >= 1
    ensures |level| == 1 ==> Fold(h, level) == level[0]
    ensures |level| > 1 ==> Fold(h, level) == Fold(h, LevelUp(h, level))
  {
  }

  /** On a full tree the fold is the tree: left before right at every node. */
  lemma {:induction false} FoldIsTreeRoot<T>(h: PairHash<T>, leaves: seq<T>, d: nat)
    requires |leaves| == Exp2(d)
    ensures Fold(h, leaves) == TreeRoot(h, leaves, d)
  {
    FoldIsRoot(h, leaves, d);
    RootIsTreeRoot(h, leaves, d);
  }

  lemma {:induction false} FoldIsRoot<T>(h: PairHash<T>, leaves: seq<T>, d: nat)
    requires |leaves| == Exp2(d)
    ensures Fold(h, leaves) == Root(h, leaves, d)
    decreases d
  {
    hide Fold, Root;
    FoldStep(h, leaves);
    RootStep(h, leaves, d);
    if d > 0 {
      assert LevelUp(h, leaves) == NextLayer(h, leaves);
      FoldIsRoot(h, NextLayer(h, leaves), d - 1);
    }
  }

  method FoldLevels<T>(h: PairHash<T>, leaves: seq<T>) returns (root: T)
    requires |leaves| >= 1
    ensures root == Fold(h, leaves)
  {
    hide Fold;
    var level := leaves;
    while |level| > 1
      invariant |level| >= 1 && Fold(h, level) == Fold(h, leaves)
      decreases |level|
    {
      FoldStep(h, level);
      var next := [];
      var i := 0;
      while i < |level|
        invariant i % 2 == 0 && i <= |level| + 1
        invariant next == LevelUp(h, level)[..(i + 1) / 2]
      {
        var left := level[i];
        var right := if i + 1 < |level| then level[i + 1] else level[i];
        next := next + [h(left, right)];
        i := i + 2;
      }
      assert next == LevelUp(h, level);
      level := next;
    }
    FoldStep(h, level);
    root := level[0];
  }

  function Digests(s: seq<Attestation>): (d: seq<Digest>)
    ensures |d| == |s|
  {
    seq(|s|, i requires 0 <= i < |s| => s[i].digest)
  }

  /** The leaves of a ledger, in the published order. */
  function Leaves(ledger: seq<Attestation>): (d: seq<Digest>)
    ensures |d| == |ledger|
  {
    assert |SortById(ledger)| == |multiset(SortById(ledger))| == |multiset(ledger)|;
    Digests(SortById(ledger))
  }

  /** The root and the number of leaves; no root for an empty ledger. */
  method ComputeLedgerRoot(sha: Hash, ledger: seq<Attestation>) returns (root: Option<Digest>, leafCount: nat)
    ensures leafCount == |ledger|
    ensures ledger == [] ==> root == None
    ensures ledger != [] ==> root == Some(Fold(Concatenating(sha), Leaves(ledger)))
  {
    var leaves := Leaves(ledger);
    if |leaves| == 0 {
      return None, 0;
    }
    var top := FoldLevels(Concatenating(sha), leaves);
    return Some(top), |leaves|;
  }

  /** The root does not depend on the order in which attestations were inserted. */
  lemma RootIgnoresInsertionOrder(a: seq<Attestation>, b: seq<Attestation>)
    requires DistinctIds(a) && DistinctIds(b) && multiset(a) == multiset(b)
    ensures Leaves(a) == Leaves(b)
  {
    SortByIdSorts(a);
    SortByIdSorts(b);
    SortedIsUnique(SortById(a), SortById(b));
  }

  // ---- binding ----

  /** Pairs of one level: equal parents mean equal children, or a collision. */
  lemma LevelsAgree<T>(h: PairHash<T>, a: seq<T>, b: seq<T>) returns (x: (T, T), y: (T, T))
    requires |a| == |b| >= 1 && LevelUp(h, a) == LevelUp(h, b)
    ensures a == b || PairCollision(h, x, y)
  {
    x, y := (a[0], a[0]), (b[0], b[0]);
    if a != b {
      var i :| 0 <= i < |a| && a[i] != b[i];
      var j := i / 2;
      x := (a[2 * j], if 2 * j + 1 < |a| then a[2 * j + 1] else a[2 * j]);
      y := (b[2 * j], if 2 * j + 1 < |b| then b[2 * j + 1] else b[2 * j]);
      assert LevelUp(h, a)[j] == h(x.0, x.1) && LevelUp(h, b)[j] == h(y.0, y.1);
    }
  }

  /** Equal root and equal leaf count bind the whole list. */
  lemma {:induction false} FoldBinds<T>(h: PairHash<T>, a: seq<T>, b: seq<T>) returns (x: (T, T), y: (T, T))
    requires |a| == |b| >= 1 && Fold(h, a) == Fold(h, b)
    ensures a == b || PairCollision(h, x, y)
    decreases |a|
  {
    hide Fold;
    FoldStep(h, a);
    FoldStep(h, b);
    if |a| == 1 {
      x, y := (a[0], a[0]), (b[0], b[0]);
    } else {
      x, y := FoldBinds(h, LevelUp(h, a), LevelUp(h, b));
      if LevelUp(h, a) == LevelUp(h, b) {
        x, y := LevelsAgree(h, a, b);
      }
    }
  }

  /** The leaf count is needed: doubling the last leaf of an odd level keeps the root. */
  lemma RootAloneDoesNotBind<T>(h: PairHash<T>, a: seq<T>)
    requires |a| > 1 && |a| % 2 == 1
    ensures Fold(h, a + [a[|a| - 1]]) == Fold(h, a) && a + [a[|a| - 1]] != a
  {
    hide Fold;
    var b := a + [a[|a| - 1]];
    FoldStep(h, a);
    FoldStep(h, b);
    assert LevelUp(h, a) == LevelUp(h, b);
  }

  // ---- the anchor ----

  /** "BSQA", version 1, root, leaf count: 41 bytes. */
  function AnchorPayload(root: Digest, leafCount: nat): (p: Bytes)
    ensures |p| == 41
  {
    [0x42, 0x53, 0x51, 0x41, 0x01] + root + LittleEndian(leafCount, 4)
  }

  /** Two ledgers with one anchor payload have the same digests in the same order, or a
      collision of the hash is produced. */
  lemma AnchorCommitsToLedger(sha: Hash, a: seq<Attestation>, b: seq<Attestation>) returns (x: Bytes, y: Bytes)
    requires OutputsHave(sha, 32)
    requires a != [] && b != [] && |a| < Pow(256, 4) && |b| < Pow(256, 4)
    requires AnchorPayload(Fold(Concatenating(sha), Leaves(a)), |a|)
          == AnchorPayload(Fold(Concatenating(sha), Leaves(b)), |b|)
    ensures Leaves(a) == Leaves(b) || Collision(sha, x, y)
  {
    var h: PairHash<Digest> := Concatenating(sha);
    var p, q := AnchorPayload(Fold(h, Leaves(a)), |a|), AnchorPayload(Fold(h, Leaves(b)), |b|);
    assert p[5..37] == Fold(h, Leaves(a)) && q[5..37] == Fold(h, Leaves(b));
    assert p[37..] == LittleEndian(|a|, 4) && q[37..] == LittleEndian(|b|, 4);
    LittleEndianInjective(|a|, |b|, 4);
    var u: (Digest, Digest), v: (Digest, Digest) := FoldBinds<Digest>(h, Leaves(a), Leaves(b));
    x, y := u.0 + u.1, v.0 + v.1;
    if Leaves(a) != Leaves(b) {
      PairCollisionIsCollision(sha, u, v);
    }
  }
}
