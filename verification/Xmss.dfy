/** XMSS-Lite: the offline signer and tree generator of xmss-client.js and the on-chain
    verifier of the vault program (wots.rs, merkle.rs and the unpacking in lib.rs), over an
    arbitrary 32-byte hash `k` in the place of Keccak-256.  The two sides agree: what the
    client produces is accepted, and what is accepted completes the client's own key. */
module Xmss {
  import opened BaseDigits
  import opened ByteStrings
  import opened HashChains
  import opened Merkle

  const HASH_LEN: nat := 20
  const FULL_HASH_LEN: nat := 32
  const NUM_CHAINS: nat := 32
  const MAX_CHAIN_STEPS: nat := 15

  function Prefix(b: Bytes, n: nat): Bytes {
    if |b| <= n then b else b[..n]
  }

  /** The truncated hash: the first 20 bytes. */
  function Truncated(k: Hash): Hash {
    (x: Bytes) => Prefix(k(x), HASH_LEN)
  }

  lemma TruncatedLength(k: Hash)
    requires OutputsHave(k, FULL_HASH_LEN)
    ensures OutputsHave(Truncated(k), HASH_LEN)
  {
  }

  // ---- flat byte strings ----

  function Concat(parts: seq<Bytes>): Bytes {
    if parts == [] then [] else Concat(parts[..|parts| - 1]) + parts[|parts| - 1]
  }

  lemma ConcatSnoc(parts: seq<Bytes>, last: Bytes)
    ensures Concat([]) == []
    ensures Concat(parts + [last]) == Concat(parts) + last
  {
    assert (parts + [last])[..|parts|] == parts;
  }

  /** Cut a flat string into `n` pieces of `size` bytes. */
  function Slices(flat: Bytes, size: nat, n: nat): (parts: seq<Bytes>)
    requires |flat| == size * n
    ensures |parts| == n && forall i :: 0 <= i < n ==> |parts[i]| == size
  {
    seq(n, i requires 0 <= i < n => Slice(flat, size, n, i))
  }

  function Slice(flat: Bytes, size: nat, n: nat, i: nat): (part: Bytes)
    requires |flat| == size * n && i < n
    ensures |part| == size
  {
    MulMonotone(size, i + 1, n);
    assert size * (i + 1) == size * i + size;
    flat[size * i..size * (i + 1)]
  }

  ghost predicate AllLength(parts: seq<Bytes>, size: nat) {
    forall i :: 0 <= i < |parts| ==> |parts[i]| == size
  }

  lemma {:induction false} ConcatLength(parts: seq<Bytes>, size: nat)
    requires AllLength(parts, size)
    ensures |Concat(parts)| == size * |parts|
  {
    if parts != [] {
      ConcatLength(parts[..|parts| - 1], size);
      assert size * |parts| == size * (|parts| - 1) + size;
    }
  }

  /** Flattening and cutting undo each other. */
  lemma {:induction false} SliceOfConcat(parts: seq<Bytes>, size: nat, i: nat)
    requires AllLength(parts, size) && i < |parts|
    ensures |Concat(parts)| == size * |parts|
    ensures Slice(Concat(parts), size, |parts|, i) == parts[i]
  {
    var n := |parts|;
    var front := parts[..n - 1];
    ConcatLength(parts, size);
    ConcatLength(front, size);
    assert size * n == size * (n - 1) + size;
    if i < n - 1 {
      SliceOfConcat(front, size, i);
      MulMonotone(size, i + 1, n - 1);
      assert Slice(Concat(front), size, n - 1, i) == Concat(front)[size * i..size * (i + 1)];
      assert Concat(parts)[size * i..size * (i + 1)] == Concat(front)[size * i..size * (i + 1)];
    } else {
      assert Concat(parts) == Concat(front) + parts[n - 1];
    }
  }

  lemma SlicesOfConcat(parts: seq<Bytes>, size: nat)
    requires AllLength(parts, size)
    ensures |Concat(parts)| == size * |parts|
    ensures Slices(Concat(parts), size, |parts|) == parts
  {
    ConcatLength(parts, size);
    forall i | 0 <= i < |parts| ensures Slices(Concat(parts), size, |parts|)[i] == parts[i] {
      SliceOfConcat(parts, size, i);
    }
  }

  lemma ConcatInjective(a: seq<Bytes>, b: seq<Bytes>, size: nat)
    requires |a| == |b| && AllLength(a, size) && AllLength(b, size)
    requires Concat(a) == Concat(b)
    ensures a == b
  {
    SlicesOfConcat(a, size);
    SlicesOfConcat(b, size);
  }

  /** The unpacking loops of both instructions. */
  method Unpack(flat: Bytes, size: nat, n: nat) returns (parts: seq<Bytes>)
    requires |flat| == size * n
    ensures parts == Slices(flat, size, n)
  {
    parts := [];
    for i := 0 to n
      invariant parts == Slices(flat, size, n)[..i]
    {
      MulMonotone(size, i + 1, n);
      assert size * (i + 1) == size * i + size;
      assert Slices(flat, size, n)[i] == Slice(flat, size, n, i);
      parts := parts + [flat[size * i..size * (i + 1)]];
    }
  }

  // ---- digits ----

  /** Two base-16 digits per byte, high nibble first, for the first 16 bytes. */
  function MsgDigits(msg: Bytes): (digits: seq<nat>)
    requires |msg| >= 16
    ensures |digits| == NUM_CHAINS
    ensures forall i :: 0 <= i < NUM_CHAINS ==> digits[i] <= MAX_CHAIN_STEPS
  {
    seq(NUM_CHAINS, i requires 0 <= i < NUM_CHAINS => if i % 2 == 0 then msg[i / 2] / 16 else msg[i / 2] % 16)
  }

  lemma Nibbles(b: Byte)
    ensures BitAnd(ShiftRight(b, 4), 15) == b / 16
    ensures BitAnd(b, 15) == b % 16
  {
    assert Pow(2, 4) == 16 by {
      assert Pow(2, 4) == 2 * Pow(2, 3) && Pow(2, 3) == 2 * Pow(2, 2) && Pow(2, 2) == 2 * Pow(2, 1);
    }
    MaskIsMod(b, 4);
    MaskIsMod(b / 16, 4);
    ModSmall(b / 16, 16);
  }

  method MsgToDigits(msg: Bytes) returns (digits: seq<nat>)
    requires |msg| >= 16
    ensures digits == MsgDigits(msg)
  {
    var d := new nat[NUM_CHAINS](i => 0);
    for i := 0 to 16
      invariant d.Length == NUM_CHAINS
      invariant forall j :: 0 <= j < 2 * i ==> d[j] == MsgDigits(msg)[j]
    {
      Nibbles(msg[i]);
      d[2 * i] := BitAnd(ShiftRight(msg[i], 4), 15);
      d[2 * i + 1] := BitAnd(msg[i], 15);
    }
    digits := d[..];
  }

  /** Read in base 16, the digits are the first sixteen bytes of the message. */
  lemma DigitsSpellMessage(msg: Bytes)
    requires |msg| >= 16
    ensures Value(Reverse(MsgDigits(msg)), 16) == BigEndianValue(msg[..16])
  {
    hide MsgDigits, Value, BigEndianValue;
    DigitsSpellPrefix(msg, 16);
    assert MsgDigits(msg)[..32] == MsgDigits(msg);
  }

  lemma {:induction false} DigitsSpellPrefix(msg: Bytes, n: nat)
    requires |msg| >= 16 && n <= 16
    ensures Value(Reverse(MsgDigits(msg)[..2 * n]), 16) == BigEndianValue(msg[..n])
  {
    hide MsgDigits, Value, BigEndianValue, Reverse;
    var d := MsgDigits(msg);
    if n == 0 {
      NothingSpelled(d, msg);
    } else {
      var front, high, low := d[..2 * n - 2], d[2 * n - 2], d[2 * n - 1];
      DigitsSpellPrefix(msg, n - 1);
      assert 2 * (n - 1) == 2 * n - 2;
      DigitPair(msg, n - 1);
      OneMoreByte(msg, n);
      TwoMoreDigits(front, high, low);
      assert d[..2 * n] == front + [high, low];
    }
  }

  lemma NothingSpelled(d: seq<nat>, msg: Bytes)
    ensures Value(Reverse(d[..0]), 16) == BigEndianValue(msg[..0])
  {
    assert d[..0] == [] && msg[..0] == [];
  }

  lemma DigitPair(msg: Bytes, n: nat)
    requires |msg| >= 16 && n < 16
    ensures 16 * MsgDigits(msg)[2 * n] + MsgDigits(msg)[2 * n + 1] == msg[n]
  {
    assert (2 * n + 1) / 2 == n && (2 * n) / 2 == n;
  }

  lemma OneMoreByte(msg: Bytes, n: nat)
    requires 0 < n <= |msg|
    ensures BigEndianValue(msg[..n]) == 256 * BigEndianValue(msg[..n - 1]) + msg[n - 1]
  {
    assert msg[..n][..n - 1] == msg[..n - 1];
  }

  lemma TwoMoreDigits(d: seq<nat>, high: nat, low: nat)
    ensures Value(Reverse(d + [high, low]), 16) == 256 * Value(Reverse(d), 16) + 16 * high + low
  {
    assert Reverse(d + [high, low]) == [low, high] + Reverse(d);
    assert ([low, high] + Reverse(d))[1..] == [high] + Reverse(d);
    assert ([high] + Reverse(d))[1..] == Reverse(d);
  }

  // ---- one-time keys ----

  datatype Keypair = Keypair(privateKey: seq<Bytes>, publicKey: seq<Bytes>, publicKeyHash: Bytes)

  /** A 36-byte buffer: at most 32 seed bytes, zero-filled, then the index. */
  function SeedBlock(seed: Bytes, i: nat): (block: Bytes)
    ensures |block| == 36
  {
    Prefix(seed, 32) + seq(32 - |Prefix(seed, 32)|, j => 0) + LittleEndian(i, 4)
  }

  function PrivateKey(k: Hash, seed: Bytes): (sk: seq<Bytes>)
    ensures |sk| == NUM_CHAINS
  {
    seq(NUM_CHAINS, i requires 0 <= i < NUM_CHAINS => Truncated(k)(SeedBlock(seed, i)))
  }

  /** Every chain walked `steps[i]` steps from its start. */
  function WalkAll(k: Hash, starts: seq<Bytes>, steps: seq<nat>): (ends: seq<Bytes>)
    requires |starts| == |steps|
    ensures |ends| == |starts|
  {
    seq(|starts|, i requires 0 <= i < |starts| => Chain(Truncated(k), starts[i], steps[i]))
  }

  function AllSteps(): (steps: seq<nat>)
    ensures |steps| == NUM_CHAINS
  {
    seq(NUM_CHAINS, i => MAX_CHAIN_STEPS)
  }

  /** The steps the verifier has left after a signature. */
  function StepsLeft(digits: seq<nat>): (left: seq<nat>)
    requires forall i :: 0 <= i < |digits| ==> digits[i] <= MAX_CHAIN_STEPS
    ensures |left| == |digits|
  {
    seq(|digits|, i requires 0 <= i < |digits| => MAX_CHAIN_STEPS - digits[i])
  }

  function PublicKey(k: Hash, sk: seq<Bytes>): (pk: seq<Bytes>)
    requires |sk| == NUM_CHAINS
    ensures |pk| == NUM_CHAINS
  {
    WalkAll(k, sk, AllSteps())
  }

  function KeypairOf(k: Hash, seed: Bytes): Keypair {
    var sk := PrivateKey(k, seed);
    var pk := PublicKey(k, sk);
    Keypair(sk, pk, k(Concat(pk)))
  }

  lemma KeypairChain(k: Hash, seed: Bytes, i: nat)
    requires i < NUM_CHAINS
    ensures PrivateKey(k, seed)[i] == Truncated(k)(SeedBlock(seed, i))
    ensures PublicKey(k, PrivateKey(k, seed))[i] == Chain(Truncated(k), PrivateKey(k, seed)[i], MAX_CHAIN_STEPS)
  {
    hide Chain, SeedBlock, Truncated;
  }

  lemma AppendNext<T>(s: seq<T>, i: nat)
    requires i < |s|
    ensures s[..i] + [s[i]] == s[..i + 1]
  {
  }

  method GenerateWotsKeypair(k: Hash, seed: Bytes) returns (kp: Keypair)
    ensures kp == KeypairOf(k, seed)
  {
    var privateKey, publicKey := [], [];
    hide PrivateKey, PublicKey, Concat;
    ghost var keys, ends := PrivateKey(k, seed), PublicKey(k, PrivateKey(k, seed));
    assert KeypairOf(k, seed) == Keypair(keys, ends, k(Concat(ends)));
    hide *;
    for i := 0 to NUM_CHAINS
      invariant privateKey == keys[..i] && publicKey == ends[..i]
    {
      KeypairChain(k, seed, i);
      var sk := Truncated(k)(SeedBlock(seed, i));
      AppendNext(keys, i);
      privateKey := privateKey + [sk];
      var pk := WalkChain(Truncated(k), sk, MAX_CHAIN_STEPS);
      AppendNext(ends, i);
      publicKey := publicKey + [pk];
    }
    assert privateKey == keys && publicKey == ends;
    kp := Keypair(privateKey, publicKey, k(Concat(publicKey)));
  }

  function SignatureOf(k: Hash, msg: Bytes, sk: seq<Bytes>): (sig: seq<Bytes>)
    requires |msg| >= 16 && |sk| == NUM_CHAINS
    ensures |sig| == NUM_CHAINS
  {
    WalkAll(k, sk, MsgDigits(msg))
  }

  method WotsSign(k: Hash, msg: Bytes, sk: seq<Bytes>) returns (sig: seq<Bytes>)
    requires |msg| >= 16 && |sk| == NUM_CHAINS
    ensures sig == SignatureOf(k, msg, sk)
  {
    var digits := MsgToDigits(msg);
    sig := [];
    for i := 0 to NUM_CHAINS
      invariant sig == SignatureOf(k, msg, sk)[..i]
    {
      var s := WalkChain(Truncated(k), sk[i], digits[i]);
      sig := sig + [s];
    }
  }

  /** The chain ends the verifier computes. */
  function ChainEnds(k: Hash, msg: Bytes, sig: seq<Bytes>): (ends: seq<Bytes>)
    requires |msg| >= 16 && |sig| == NUM_CHAINS
    ensures |ends| == NUM_CHAINS
  {
    WalkAll(k, sig, StepsLeft(MsgDigits(msg)))
  }

  lemma ChainEnd(k: Hash, msg: Bytes, sig: seq<Bytes>, i: nat)
    requires |msg| >= 16 && |sig| == NUM_CHAINS && i < NUM_CHAINS
    ensures ChainEnds(k, msg, sig)[i] == Chain(Truncated(k), sig[i], MAX_CHAIN_STEPS - MsgDigits(msg)[i])
  {
    hide MsgDigits, Chain, Truncated;
  }

  /** wots_verify: recover the public key hash. */
  method WotsVerify(k: Hash, msg: Bytes, sig: seq<Bytes>) returns (pkHash: Bytes)
    requires |msg| >= 16 && |sig| == NUM_CHAINS
    ensures pkHash == k(Concat(ChainEnds(k, msg, sig)))
  {
    hide *;
    var digits := MsgToDigits(msg);
    ghost var ends := ChainEnds(k, msg, sig);
    var pkConcat := [];
    ConcatSnoc([], []);
    for i := 0 to NUM_CHAINS
      invariant pkConcat == Concat(ends[..i])
    {
      ChainEnd(k, msg, sig, i);
      var recovered := WalkChain(Truncated(k), sig[i], MAX_CHAIN_STEPS - digits[i]);
      pkConcat := pkConcat + recovered;
      ConcatSnoc(ends[..i], ends[i]);
      assert ends[..i + 1] == ends[..i] + [ends[i]];
    }
    assert ends[..NUM_CHAINS] == ends;
    pkHash := k(pkConcat);
  }

  /** Signing and completing the chains recovers the public key. */
  lemma SignatureCompletesKey(k: Hash, msg: Bytes, sk: seq<Bytes>)
    requires |msg| >= 16 && |sk| == NUM_CHAINS
    ensures ChainEnds(k, msg, SignatureOf(k, msg, sk)) == PublicKey(k, sk)
  {
    hide MsgDigits;
    WalkOnAll(k, sk, MsgDigits(msg));
  }

  /** Walking to the digits and then the steps left is walking all steps. */
  lemma WalkOnAll(k: Hash, sk: seq<Bytes>, digits: seq<nat>)
    requires |sk| == |digits| == NUM_CHAINS
    requires forall i :: 0 <= i < |digits| ==> digits[i] <= MAX_CHAIN_STEPS
    ensures WalkAll(k, WalkAll(k, sk, digits), StepsLeft(digits)) == WalkAll(k, sk, AllSteps())
  {
    hide Chain, Truncated;
    forall i | 0 <= i < NUM_CHAINS
      ensures WalkAll(k, WalkAll(k, sk, digits), StepsLeft(digits))[i] == WalkAll(k, sk, AllSteps())[i]
    {
      ChainAdd(Truncated(k), sk[i], digits[i], MAX_CHAIN_STEPS - digits[i]);
    }
  }

  // ---- messages ----

  /** H(amount || recipient || leaf_index), both languages. */
  function WithdrawalMessage(k: Hash, amount: nat, recipient: Bytes, leafIndex: nat): Bytes {
    Truncated(k)(LittleEndian(amount, 8) + recipient + LittleEndian(leafIndex, 2))
  }

  /** constructWithdrawalMessage: three writes into a 42-byte buffer. */
  method ConstructWithdrawalMessage(k: Hash, amount: nat, recipient: Bytes, leafIndex: nat) returns (msg: Bytes)
    requires |recipient| == 32 && amount < Pow(256, 8) && leafIndex < Pow(256, 2)
    ensures msg == WithdrawalMessage(k, amount, recipient, leafIndex)
    ensures msg == Prefix(k(LittleEndian(amount, 8) + recipient + LittleEndian(leafIndex, 2)), 20)
  {
    var buf := new Byte[42](i => 0);
    WriteAt(buf, 0, LittleEndian(amount, 8));
    assert buf[..8] == LittleEndian(amount, 8);
    WriteAt(buf, 8, recipient);
    assert buf[..40] == LittleEndian(amount, 8) + recipient;
    WriteAt(buf, 40, LittleEndian(leafIndex, 2));
    assert buf[..] == LittleEndian(amount, 8) + recipient + LittleEndian(leafIndex, 2);
    msg := Truncated(k)(buf[..]);
  }

  /** Two withdrawals with one message have the same amount, recipient and leaf index, or
      the truncated hash collides. */
  lemma MessageBindsWithdrawal(k: Hash, a: nat, r: Bytes, i: nat, a': nat, r': Bytes, i': nat)
    returns (x: Bytes, y: Bytes)
    requires a < Pow(256, 8) && a' < Pow(256, 8) && i < Pow(256, 2) && i' < Pow(256, 2)
    requires |r| == |r'| == 32
    requires WithdrawalMessage(k, a, r, i) == WithdrawalMessage(k, a', r', i')
    ensures (a == a' && r == r' && i == i') || Collision(Truncated(k), x, y)
  {
    x := LittleEndian(a, 8) + r + LittleEndian(i, 2);
    y := LittleEndian(a', 8) + r' + LittleEndian(i', 2);
    if x == y {
      assert x[..8] == LittleEndian(a, 8) && y[..8] == LittleEndian(a', 8);
      assert x[8..40] == r && y[8..40] == r';
      assert x[40..] == LittleEndian(i, 2) && y[40..] == LittleEndian(i', 2);
      LittleEndianInjective(a, a', 8);
      LittleEndianInjective(i, i', 2);
    }
  }

  // ---- the tree ----

  /** The seed of leaf `i`. */
  function LeafSeed(k: Hash, masterSeed: Bytes, i: nat): Bytes {
    k(SeedBlock(masterSeed, i))
  }

  function XmssKeys(k: Hash, masterSeed: Bytes, depth: nat): (keys: seq<Keypair>)
    ensures |keys| == Exp2(depth)
  {
    seq(Exp2(depth), i requires 0 <= i < Exp2(depth) => KeypairOf(k, LeafSeed(k, masterSeed, i)))
  }

  function XmssLeaves(k: Hash, masterSeed: Bytes, depth: nat): (leaves: seq<Digest>)
    ensures |leaves| == Exp2(depth)
  {
    seq(Exp2(depth), i requires 0 <= i < Exp2(depth) =>
      AsDigest(KeypairOf(k, LeafSeed(k, masterSeed, i)).publicKeyHash))
  }

  lemma {:induction false} FullTreeDepth(d: nat)
    ensures Depth(Exp2(d)) == d
  {
    if d > 0 {
      FullTreeDepth(d - 1);
      assert (Exp2(d) + 1) / 2 == Exp2(d - 1);
    }
  }

  lemma FullTreeNeedsNoPadding(leaves: seq<Digest>, d: nat)
    requires |leaves| == Exp2(d)
    ensures Depth(|leaves|) == d && Padded(AsDigest([]), leaves) == leaves
  {
    FullTreeDepth(d);
  }

  /** The root the client publishes. */
  function XmssRoot(k: Hash, masterSeed: Bytes, depth: nat): Digest {
    TreeRoot<Digest>(Concatenating(k), XmssLeaves(k, masterSeed, depth), depth)
  }

  /** generateXmssTree: keys, root and one proof per leaf. */
  method GenerateXmssTree(k: Hash, depth: nat, masterSeed: Bytes)
    returns (keys: seq<Keypair>, root: Digest, proofs: seq<seq<Digest>>)
    requires depth <= 30
    ensures keys == XmssKeys(k, masterSeed, depth)
    ensures root == XmssRoot(k, masterSeed, depth)
    ensures |proofs| == Exp2(depth)
    ensures forall i :: 0 <= i < Exp2(depth) ==>
      proofs[i] == Path<Digest>(Concatenating(k), XmssLeaves(k, masterSeed, depth), depth, i)
  {
    var numLeaves := Exp2(depth);
    keys := [];
    var leaves: seq<Digest> := [];
    hide *;
    for i := 0 to numLeaves
      invariant keys == XmssKeys(k, masterSeed, depth)[..i]
      invariant leaves == XmssLeaves(k, masterSeed, depth)[..i]
    {
      XmssElement(k, masterSeed, depth, i);
      var keypair := GenerateWotsKeypair(k, LeafSeed(k, masterSeed, i));
      keys := keys + [keypair];
      leaves := leaves + [AsDigest(keypair.publicKeyHash)];
    }
    assert leaves == XmssLeaves(k, masterSeed, depth);
    FullTreeNeedsNoPadding(leaves, depth);
    var top: Option<Digest>;
    top, proofs := BuildMerkleTree<Digest>(Concatenating(k), AsDigest([]), leaves);
    XmssRootIsTreeRoot(k, masterSeed, depth);
    root := top.value;
  }

  lemma XmssElement(k: Hash, masterSeed: Bytes, depth: nat, i: nat)
    requires i < Exp2(depth)
    ensures XmssKeys(k, masterSeed, depth)[i] == KeypairOf(k, LeafSeed(k, masterSeed, i))
    ensures XmssLeaves(k, masterSeed, depth)[i] == AsDigest(KeypairOf(k, LeafSeed(k, masterSeed, i)).publicKeyHash)
  {
    hide KeypairOf, LeafSeed, Exp2, AsDigest;
  }

  lemma XmssRootIsTreeRoot(k: Hash, masterSeed: Bytes, depth: nat)
    ensures XmssRoot(k, masterSeed, depth)
         == TreeRoot<Digest>(Concatenating(k), XmssLeaves(k, masterSeed, depth), depth)
  {
    hide TreeRoot, XmssLeaves, Exp2;
  }

  /** Two leaves: the root is the hash of the left public key hash followed by the right one. */
  lemma RootOfTwoLeaves(k: Hash, masterSeed: Bytes)
    requires OutputsHave(k, FULL_HASH_LEN)
    ensures Exp2(1) == 2
    ensures XmssRoot(k, masterSeed, 1)
         == k(XmssKeys(k, masterSeed, 1)[0].publicKeyHash + XmssKeys(k, masterSeed, 1)[1].publicKeyHash)
  {
    hide KeypairOf, LeafSeed;
    assert Exp2(0) == 1 && Exp2(1) == 2;
    XmssElement(k, masterSeed, 1, 0);
    XmssElement(k, masterSeed, 1, 1);
    KeyShape(k, masterSeed, 1, 0);
    KeyShape(k, masterSeed, 1, 1);
    var leaves := XmssLeaves(k, masterSeed, 1);
    assert leaves[..1] == [leaves[0]] && leaves[1..] == [leaves[1]];
    assert TreeRoot<Digest>(Concatenating(k), leaves[..1], 0) == leaves[0];
    assert TreeRoot<Digest>(Concatenating(k), leaves[1..], 0) == leaves[1];
  }

  // ---- every chain is its own ----

  /** One hash or the other collides. */
  ghost predicate Clash(k: Hash, a: Bytes, b: Bytes) {
    Collision(k, a, b) || Collision(Truncated(k), a, b)
  }

  /** Two seeds that are compared as the blocks hold them. */
  predicate Comparable(s: Bytes, s': Bytes) {
    s == s' || |s| == |s'| == 32
  }

  lemma BlockHoldsBoth(s: Bytes, i: nat, s': Bytes, j: nat)
    requires Comparable(s, s') && i < Pow(256, 4) && j < Pow(256, 4)
    requires SeedBlock(s, i) == SeedBlock(s', j)
    ensures s == s' && i == j
  {
    var a, b := SeedBlock(s, i), SeedBlock(s', j);
    assert a[32..] == LittleEndian(i, 4) && b[32..] == LittleEndian(j, 4);
    LittleEndianInjective(i, j, 4);
    if |s| == |s'| == 32 {
      assert Prefix(s, 32) == s && Prefix(s', 32) == s';
      assert a[..32] == s && b[..32] == s';
    }
  }

  lemma FourBytes()
    ensures Pow(256, 4) == Pow(2, 32) && 256 <= Pow(256, 4)
  {
    assert Pow(2, 2) == 4 && Pow(256, 1) == 256;
    hide Pow;
    PowAdd(2, 2, 2);
    PowAdd(2, 4, 4);
    PowMul(2, 8, 4);
    PowMonotone(256, 1, 4);
  }

  lemma IndicesFit(depth: nat)
    requires depth <= 30
    ensures Exp2(depth) < Pow(256, 4) && NUM_CHAINS < Pow(256, 4)
  {
    assert Pow(2, 32) == 2 * Pow(2, 31) && Pow(2, 31) == 2 * Pow(2, 30);
    hide Exp2, Pow;
    FourBytes();
    Exp2Monotone(depth, 30);
    Exp2IsPow(30);
    PowMonotone(2, 0, 30);
  }

  lemma LeafSeedIsOwn(k: Hash, m: Bytes, i: nat, m': Bytes, j: nat) returns (a: Bytes, b: Bytes)
    requires Comparable(m, m') && i < Pow(256, 4) && j < Pow(256, 4)
    requires LeafSeed(k, m, i) == LeafSeed(k, m', j)
    ensures (m == m' && i == j) || Collision(k, a, b)
  {
    hide SeedBlock;
    a, b := SeedBlock(m, i), SeedBlock(m', j);
    if a == b {
      BlockHoldsBoth(m, i, m', j);
    }
  }

  /** The start of chain `c` of the key of leaf `i`. */
  lemma KeyStart(k: Hash, m: Bytes, depth: nat, i: nat, c: nat)
    requires i < Exp2(depth) && c < NUM_CHAINS
    ensures |XmssKeys(k, m, depth)[i].privateKey| == |XmssKeys(k, m, depth)[i].publicKey| == NUM_CHAINS
    ensures XmssKeys(k, m, depth)[i].privateKey[c] == Truncated(k)(SeedBlock(LeafSeed(k, m, i), c))
    ensures XmssKeys(k, m, depth)[i].publicKey[c]
         == Chain(Truncated(k), XmssKeys(k, m, depth)[i].privateKey[c], MAX_CHAIN_STEPS)
  {
    hide Chain, SeedBlock, Truncated, LeafSeed, Exp2, PrivateKey, PublicKey, XmssKeys;
    XmssElement(k, m, depth, i);
    KeypairChain(k, LeafSeed(k, m, i), c);
  }

  /** No two chains of the keys that the client generates, of one seed or of two, have the same
      secret start or the same public end, unless a hash collides. */
  lemma ChainsAreOwn(k: Hash, m: Bytes, depth: nat, i: nat, c: nat, m': Bytes, depth': nat, j: nat, c': nat)
    returns (a: Bytes, b: Bytes)
    requires OutputsHave(k, FULL_HASH_LEN) && depth <= 30 && depth' <= 30 && Comparable(m, m')
    requires i < Exp2(depth) && c < NUM_CHAINS && j < Exp2(depth') && c' < NUM_CHAINS
    requires !(m == m' && i == j && c == c')
    requires var key, key' := XmssKeys(k, m, depth)[i], XmssKeys(k, m', depth')[j];
             && |key.privateKey| == |key.publicKey| == |key'.privateKey| == |key'.publicKey| == NUM_CHAINS
             && (key.privateKey[c] == key'.privateKey[c'] || key.publicKey[c] == key'.publicKey[c'])
    ensures Clash(k, a, b)
  {
    hide Chain, SeedBlock, Truncated, LeafSeed, Exp2, XmssKeys;
    KeyStart(k, m, depth, i, c);
    KeyStart(k, m', depth', j, c');
    IndicesFit(depth);
    IndicesFit(depth');
    var x, y := XmssKeys(k, m, depth)[i].privateKey[c], XmssKeys(k, m', depth')[j].privateKey[c'];
    if x != y {
      a, b := MergingChainsCollide(Truncated(k), x, y, MAX_CHAIN_STEPS);
    } else {
      a, b := SeedBlock(LeafSeed(k, m, i), c), SeedBlock(LeafSeed(k, m', j), c');
      if a == b {
        LeafSeedLength(k, m, i);
        LeafSeedLength(k, m', j);
        BlockHoldsBoth(LeafSeed(k, m, i), c, LeafSeed(k, m', j), c');
        a, b := LeafSeedIsOwn(k, m, i, m', j);
      }
    }
  }

  lemma LeafSeedLength(k: Hash, m: Bytes, i: nat)
    requires OutputsHave(k, FULL_HASH_LEN)
    ensures |LeafSeed(k, m, i)| == 32
  {
  }

  /** Every leaf has a one-time key of its own: two leaves of one seed, or any leaves of two seeds,
      with the same secret key or the same public key hash give a collision. */
  lemma KeysAreOwn(k: Hash, m: Bytes, depth: nat, i: nat, m': Bytes, depth': nat, j: nat)
    returns (a: Bytes, b: Bytes)
    requires OutputsHave(k, FULL_HASH_LEN) && depth <= 30 && depth' <= 30 && Comparable(m, m')
    requires i < Exp2(depth) && j < Exp2(depth') && !(m == m' && i == j)
    requires var key, key' := XmssKeys(k, m, depth)[i], XmssKeys(k, m', depth')[j];
             key.privateKey == key'.privateKey || key.publicKeyHash == key'.publicKeyHash
    ensures Clash(k, a, b)
  {
    hide Chain, SeedBlock, Truncated, LeafSeed, Exp2, XmssKeys, Concat;
    var key, key' := XmssKeys(k, m, depth)[i], XmssKeys(k, m', depth')[j];
    KeyStart(k, m, depth, i, 0);
    KeyStart(k, m', depth', j, 0);
    KeyShape(k, m, depth, i);
    KeyShape(k, m', depth', j);
    if key.privateKey != key'.privateKey {
      a, b := Concat(key.publicKey), Concat(key'.publicKey);
      if a != b {
        return;
      }
      ConcatInjective(key.publicKey, key'.publicKey, HASH_LEN);
    }
    a, b := ChainsAreOwn(k, m, depth, i, 0, m', depth', j, 0);
  }

  lemma KeyShape(k: Hash, m: Bytes, depth: nat, i: nat)
    requires OutputsHave(k, FULL_HASH_LEN) && i < Exp2(depth)
    ensures var key := XmssKeys(k, m, depth)[i];
            AllLength(key.publicKey, HASH_LEN) && key.publicKeyHash == k(Concat(key.publicKey))
  {
    hide Chain, SeedBlock, Truncated, LeafSeed, Exp2, XmssKeys, Concat;
    XmssElement(k, m, depth, i);
    PrivateKeyLength(k, LeafSeed(k, m, i));
    WalkAllLength(k, PrivateKey(k, LeafSeed(k, m, i)), AllSteps());
  }

  // ---- the on-chain authorisation ----

  function ProofNodes(proofFlat: Bytes, depth: nat): (nodes: seq<Digest>)
    requires |proofFlat| == FULL_HASH_LEN * depth
    ensures |nodes| == depth
  {
    var parts := Slices(proofFlat, FULL_HASH_LEN, depth);
    seq(depth, i requires 0 <= i < depth => AsDigest(parts[i]))
  }

  /** The leaf the verifier recovers from a flat signature. */
  function RecoveredLeaf(k: Hash, msg: Bytes, sigFlat: Bytes): Digest
    requires |msg| >= 16 && |sigFlat| == HASH_LEN * NUM_CHAINS
  {
    AsDigest(k(Concat(ChainEnds(k, msg, Slices(sigFlat, HASH_LEN, NUM_CHAINS)))))
  }

  /** What both vault instructions check of a flat signature and a flat proof. */
  predicate Authorizes(k: Hash, root: Digest, depth: nat, leafIndex: nat, msg: Bytes,
                       sigFlat: Bytes, proofFlat: Bytes)
    requires |msg| >= 16
  {
    && |sigFlat| == NUM_CHAINS * HASH_LEN
    && |proofFlat| == depth * FULL_HASH_LEN
    && Climb<Digest>(Concatenating(k), RecoveredLeaf(k, msg, sigFlat), leafIndex,
                     ProofNodes(proofFlat, depth)) == root
  }

  /** Steps 2 and 3 of withdraw_from_vault and bridge_out_from_vault. */
  method CheckAuthorization(k: Hash, root: Digest, depth: nat, leafIndex: nat, msg: Bytes,
                            sigFlat: Bytes, proofFlat: Bytes) returns (ok: bool)
    requires |msg| >= 16
    requires |sigFlat| == NUM_CHAINS * HASH_LEN && |proofFlat| == depth * FULL_HASH_LEN
    ensures ok <==> Authorizes(k, root, depth, leafIndex, msg, sigFlat, proofFlat)
  {
    var sigArray := Unpack(sigFlat, HASH_LEN, NUM_CHAINS);
    var recovered := WotsVerify(k, msg, sigArray);
    var siblings := Unpack(proofFlat, FULL_HASH_LEN, depth);
    var merkleProof: seq<Digest> := seq(depth, i requires 0 <= i < depth => AsDigest(siblings[i]));
    assert merkleProof == ProofNodes(proofFlat, depth);
    ok := VerifyMerkleProof<Digest>(Concatenating(k), AsDigest(recovered), leafIndex, merkleProof, root);
  }

  /** The two flat byte strings the client sends for a leaf. */
  function ClientSignature(k: Hash, masterSeed: Bytes, leaf: nat, msg: Bytes): Bytes
    requires |msg| >= 16
  {
    Concat(SignatureOf(k, msg, PrivateKey(k, LeafSeed(k, masterSeed, leaf))))
  }

  function ClientProof(k: Hash, masterSeed: Bytes, depth: nat, leaf: nat): Bytes
    requires leaf < Exp2(depth)
  {
    Concat(Path<Digest>(Concatenating(k), XmssLeaves(k, masterSeed, depth), depth, leaf))
  }

  lemma WalkAllLength(k: Hash, starts: seq<Bytes>, steps: seq<nat>)
    requires OutputsHave(k, FULL_HASH_LEN) && |starts| == |steps| && AllLength(starts, HASH_LEN)
    ensures AllLength(WalkAll(k, starts, steps), HASH_LEN)
  {
    TruncatedLength(k);
    forall i | 0 <= i < |starts| ensures |WalkAll(k, starts, steps)[i]| == HASH_LEN {
      ChainLength(Truncated(k), starts[i], steps[i], HASH_LEN);
    }
  }

  /** On chain, the client's signature recovers the leaf of its key. */
  lemma ClientSignatureRecoversLeaf(k: Hash, masterSeed: Bytes, depth: nat, leaf: nat, msg: Bytes)
    requires OutputsHave(k, FULL_HASH_LEN) && |msg| >= 16 && leaf < Exp2(depth)
    ensures |ClientSignature(k, masterSeed, leaf, msg)| == HASH_LEN * NUM_CHAINS
    ensures RecoveredLeaf(k, msg, ClientSignature(k, masterSeed, leaf, msg)) == XmssLeaves(k, masterSeed, depth)[leaf]
  {
    hide Chain, Concat, MsgDigits, Truncated, AsDigest, XmssLeaves, SeedBlock, Exp2;
    var sk := PrivateKey(k, LeafSeed(k, masterSeed, leaf));
    var sig := SignatureOf(k, msg, sk);
    PrivateKeyLength(k, LeafSeed(k, masterSeed, leaf));
    WalkAllLength(k, sk, MsgDigits(msg));
    SlicesOfConcat(sig, HASH_LEN);
    SignatureCompletesKey(k, msg, sk);
    XmssElement(k, masterSeed, depth, leaf);
  }

  lemma PrivateKeyLength(k: Hash, seed: Bytes)
    requires OutputsHave(k, FULL_HASH_LEN)
    ensures AllLength(PrivateKey(k, seed), HASH_LEN)
  {
    hide SeedBlock;
    TruncatedLength(k);
    forall i | 0 <= i < NUM_CHAINS ensures |PrivateKey(k, seed)[i]| == HASH_LEN {
      KeypairChain(k, seed, i);
    }
  }

  /** On chain, the client's proof leads from its leaf to its root. */
  lemma ClientProofReachesRoot(k: Hash, masterSeed: Bytes, depth: nat, leaf: nat)
    requires leaf < Exp2(depth)
    ensures |ClientProof(k, masterSeed, depth, leaf)| == FULL_HASH_LEN * depth
    ensures Climb<Digest>(Concatenating(k), XmssLeaves(k, masterSeed, depth)[leaf], leaf,
                          ProofNodes(ClientProof(k, masterSeed, depth, leaf), depth))
         == XmssRoot(k, masterSeed, depth)
  {
    hide Climb, TreeRoot, Root, Path, Concat, XmssLeaves, ProofNodes, Concatenating, Exp2;
    var leaves := XmssLeaves(k, masterSeed, depth);
    ProofSurvivesFlattening(Path<Digest>(Concatenating(k), leaves, depth, leaf));
    PathReachesRoot<Digest>(Concatenating(k), leaves, depth, leaf);
    RootIsTreeRoot<Digest>(Concatenating(k), leaves, depth);
  }

  /** Client and chain agree: for every seed, depth, leaf and message, what the client signs
      and proves is accepted against the root it published. */
  lemma ClientIsAccepted(k: Hash, masterSeed: Bytes, depth: nat, leaf: nat, msg: Bytes)
    requires OutputsHave(k, FULL_HASH_LEN) && |msg| >= 16 && leaf < Exp2(depth)
    ensures Authorizes(k, XmssRoot(k, masterSeed, depth), depth, leaf, msg,
                       ClientSignature(k, masterSeed, leaf, msg), ClientProof(k, masterSeed, depth, leaf))
  {
    ClientSignatureRecoversLeaf(k, masterSeed, depth, leaf, msg);
    ClientProofReachesRoot(k, masterSeed, depth, leaf);
    hide ClientSignature, ClientProof, XmssRoot, XmssLeaves, RecoveredLeaf, ProofNodes, Climb, Exp2;
  }

  lemma ProofSurvivesFlattening(path: seq<Digest>)
    ensures |Concat(path)| == FULL_HASH_LEN * |path|
    ensures ProofNodes(Concat(path), |path|) == path
  {
    SlicesOfConcat(path, FULL_HASH_LEN);
  }

  /** Binding: whatever is accepted at a leaf walks every chain of that leaf's own key to
      its end; otherwise a collision of the hash is returned. */
  lemma AcceptedCompletesOwnKey(k: Hash, masterSeed: Bytes, depth: nat, leaf: nat, msg: Bytes,
                                sigFlat: Bytes, proofFlat: Bytes) returns (a: Bytes, b: Bytes)
    requires OutputsHave(k, FULL_HASH_LEN) && |msg| >= 16 && leaf < Exp2(depth)
    requires Authorizes(k, XmssRoot(k, masterSeed, depth), depth, leaf, msg, sigFlat, proofFlat)
    ensures || ChainEnds(k, msg, Slices(sigFlat, HASH_LEN, NUM_CHAINS))
               == PublicKey(k, PrivateKey(k, LeafSeed(k, masterSeed, leaf)))
            || Collision(k, a, b)
  {
    var sk := PrivateKey(k, LeafSeed(k, masterSeed, leaf));
    a, b := AcceptedLeafIsRecovered(k, masterSeed, depth, leaf, msg, sigFlat, proofFlat);
    if RecoveredLeaf(k, msg, sigFlat) == XmssLeaves(k, masterSeed, depth)[leaf] {
      hide Authorizes, Chain, Concat, MsgDigits, Truncated, Climb, XmssLeaves, XmssRoot, TreeRoot, Exp2;
      XmssElement(k, masterSeed, depth, leaf);
      var sig := Slices(sigFlat, HASH_LEN, NUM_CHAINS);
      var ends, pk := ChainEnds(k, msg, sig), PublicKey(k, sk);
      a, b := Concat(ends), Concat(pk);
      if a == b {
        PrivateKeyLength(k, LeafSeed(k, masterSeed, leaf));
        WalkAllLength(k, sk, AllSteps());
        WalkAllLength(k, sig, StepsLeft(MsgDigits(msg)));
        ConcatInjective(ends, pk, HASH_LEN);
      }
    }
  }

  lemma AcceptedLeafIsRecovered(k: Hash, masterSeed: Bytes, depth: nat, leaf: nat, msg: Bytes,
                                sigFlat: Bytes, proofFlat: Bytes) returns (a: Bytes, b: Bytes)
    requires OutputsHave(k, FULL_HASH_LEN) && |msg| >= 16 && leaf < Exp2(depth)
    requires Authorizes(k, XmssRoot(k, masterSeed, depth), depth, leaf, msg, sigFlat, proofFlat)
    ensures RecoveredLeaf(k, msg, sigFlat) == XmssLeaves(k, masterSeed, depth)[leaf] || Collision(k, a, b)
  {
    hide Climb, TreeRoot, Root, Path, RecoveredLeaf, XmssLeaves, ProofNodes, Concatenating, Exp2;
    var leaves := XmssLeaves(k, masterSeed, depth);
    RootIsTreeRoot<Digest>(Concatenating(k), leaves, depth);
    var u: (Digest, Digest), v: (Digest, Digest) :=
      AcceptedLeafIsOwn<Digest>(Concatenating(k), leaves, depth, RecoveredLeaf(k, msg, sigFlat), leaf,
                                ProofNodes(proofFlat, depth));
    a, b := u.0 + u.1, v.0 + v.1;
    if RecoveredLeaf(k, msg, sigFlat) != leaves[leaf] {
      PairCollisionIsCollision(k, u, v);
    }
  }

  // ---- what a revealed signature gives away: there is no checksum ----

  /** Every digit of `msg'` is at least that of `msg`. */
  predicate Covers(msg: Bytes, msg': Bytes)
    requires |msg| >= 16 && |msg'| >= 16
  {
    forall i :: 0 <= i < NUM_CHAINS ==> MsgDigits(msg)[i] <= MsgDigits(msg')[i]
  }

  /** The signature of `msg`, walked on to the digits of `msg'` by anyone who has seen it. */
  function WalkedOn(k: Hash, msg: Bytes, msg': Bytes, sig: seq<Bytes>): (sig': seq<Bytes>)
    requires |msg| >= 16 && |msg'| >= 16 && Covers(msg, msg') && |sig| == NUM_CHAINS
    ensures |sig'| == NUM_CHAINS
  {
    WalkAll(k, sig, seq(NUM_CHAINS, i requires 0 <= i < NUM_CHAINS => MsgDigits(msg')[i] - MsgDigits(msg)[i]))
  }

  lemma WalkedOnEnds(k: Hash, msg: Bytes, msg': Bytes, sig: seq<Bytes>)
    requires |msg| >= 16 && |msg'| >= 16 && Covers(msg, msg') && |sig| == NUM_CHAINS
    ensures ChainEnds(k, msg', WalkedOn(k, msg, msg', sig)) == ChainEnds(k, msg, sig)
  {
    hide Chain, Truncated, MsgDigits, ChainEnds;
    var sig' := WalkedOn(k, msg, msg', sig);
    forall i | 0 <= i < NUM_CHAINS ensures ChainEnds(k, msg', sig')[i] == ChainEnds(k, msg, sig)[i] {
      var d, d' := MsgDigits(msg)[i], MsgDigits(msg')[i];
      ChainEnd(k, msg, sig, i);
      ChainEnd(k, msg', sig', i);
      ChainAdd(Truncated(k), sig[i], d' - d, MAX_CHAIN_STEPS - d');
    }
  }

  /** One accepted signature authorises every message that covers its own, at the same leaf and
      with the same proof. */
  lemma CoveredIsAuthorized(k: Hash, root: Digest, depth: nat, leaf: nat, msg: Bytes, sigFlat: Bytes,
                            proofFlat: Bytes, msg': Bytes)
    requires OutputsHave(k, FULL_HASH_LEN) && |msg| >= 16 && |msg'| >= 16 && Covers(msg, msg')
    requires Authorizes(k, root, depth, leaf, msg, sigFlat, proofFlat)
    ensures Authorizes(k, root, depth, leaf, msg',
                       Concat(WalkedOn(k, msg, msg', Slices(sigFlat, HASH_LEN, NUM_CHAINS))), proofFlat)
  {
    hide Climb, ProofNodes, MsgDigits, ChainEnds, Concat, Slices, Truncated;
    var sig := Slices(sigFlat, HASH_LEN, NUM_CHAINS);
    var sig' := WalkedOn(k, msg, msg', sig);
    WalkedOnEnds(k, msg, msg', sig);
    WalkAllLength(k, sig, seq(NUM_CHAINS, i requires 0 <= i < NUM_CHAINS => MsgDigits(msg')[i] - MsgDigits(msg)[i]));
    SlicesOfConcat(sig', HASH_LEN);
  }

  /** The ways a second accepted signature at a leaf breaks the hash: in a chain of the truncated
      hash, or by a collision of the full one. */
  datatype KeyBreak = InChain(k: Break) | InFull(a: Bytes, b: Bytes)

  ghost predicate ValidKeyBreak(k: Hash, sig: seq<Bytes>, forged: seq<Bytes>, broken: KeyBreak) {
    match broken
    case InChain(b) => ValidBreak(Truncated(k), sig, forged, b)
    case InFull(a, b) => Collision(k, a, b)
  }

  /** And it authorises no more than that: a signature accepted at the same leaf for a message
      that does not cover the first breaks the hash. */
  lemma UncoveredBreaksHash(k: Hash, root: Digest, depth: nat, leaf: nat, msg: Bytes, sigFlat: Bytes,
                            proofFlat: Bytes, msg': Bytes, sigFlat': Bytes, proofFlat': Bytes)
    returns (broken: KeyBreak)
    requires OutputsHave(k, FULL_HASH_LEN) && |msg| >= 16 && |msg'| >= 16 && !Covers(msg, msg')
    requires Authorizes(k, root, depth, leaf, msg, sigFlat, proofFlat)
    requires Authorizes(k, root, depth, leaf, msg', sigFlat', proofFlat')
    ensures ValidKeyBreak(k, Slices(sigFlat, HASH_LEN, NUM_CHAINS), Slices(sigFlat', HASH_LEN, NUM_CHAINS), broken)
  {
    hide Climb, ProofNodes, RecoveredLeaf, MsgDigits, ChainEnds, Concat, Slices, Truncated, Chain;
    var sig, sig' := Slices(sigFlat, HASH_LEN, NUM_CHAINS), Slices(sigFlat', HASH_LEN, NUM_CHAINS);
    var a, b := SameEnds(k, root, depth, leaf, msg, sigFlat, proofFlat, msg', sigFlat', proofFlat');
    if ChainEnds(k, msg, sig) != ChainEnds(k, msg', sig') {
      return InFull(a, b);
    }
    var i :| 0 <= i < NUM_CHAINS && MsgDigits(msg)[i] > MsgDigits(msg')[i];
    ChainEnd(k, msg, sig, i);
    ChainEnd(k, msg', sig', i);
    var b' := EarlierStartBreaks(Truncated(k), i, sig, sig', MAX_CHAIN_STEPS - MsgDigits(msg)[i],
                                 MAX_CHAIN_STEPS - MsgDigits(msg')[i]);
    broken := InChain(b');
  }

  /** Two signatures accepted at one leaf complete the same chain ends, or the hash collides. */
  lemma SameEnds(k: Hash, root: Digest, depth: nat, leaf: nat, msg: Bytes, sigFlat: Bytes, proofFlat: Bytes,
                 msg': Bytes, sigFlat': Bytes, proofFlat': Bytes) returns (a: Bytes, b: Bytes)
    requires OutputsHave(k, FULL_HASH_LEN) && |msg| >= 16 && |msg'| >= 16
    requires Authorizes(k, root, depth, leaf, msg, sigFlat, proofFlat)
    requires Authorizes(k, root, depth, leaf, msg', sigFlat', proofFlat')
    ensures || ChainEnds(k, msg, Slices(sigFlat, HASH_LEN, NUM_CHAINS))
               == ChainEnds(k, msg', Slices(sigFlat', HASH_LEN, NUM_CHAINS))
            || Collision(k, a, b)
  {
    hide Climb, MsgDigits, Truncated, Chain, Slices, Concat, ProofNodes;
    var ends, ends' := ChainEnds(k, msg, Slices(sigFlat, HASH_LEN, NUM_CHAINS)),
                       ChainEnds(k, msg', Slices(sigFlat', HASH_LEN, NUM_CHAINS));
    var u: (Digest, Digest), v: (Digest, Digest) :=
      SamePositionSameNode<Digest>(Concatenating(k), RecoveredLeaf(k, msg, sigFlat), RecoveredLeaf(k, msg', sigFlat'),
                                   leaf, ProofNodes(proofFlat, depth), ProofNodes(proofFlat', depth));
    if RecoveredLeaf(k, msg, sigFlat) == RecoveredLeaf(k, msg', sigFlat') {
      a, b := Concat(ends), Concat(ends');
      if a == b {
        WalkAllLength(k, Slices(sigFlat, HASH_LEN, NUM_CHAINS), StepsLeft(MsgDigits(msg)));
        WalkAllLength(k, Slices(sigFlat', HASH_LEN, NUM_CHAINS), StepsLeft(MsgDigits(msg')));
        ConcatInjective(ends, ends', HASH_LEN);
      }
    } else {
      a, b := u.0 + u.1, v.0 + v.1;
      PairCollisionIsCollision(k, u, v);
    }
  }
}
