/** The Winternitz one-time signature of winternitz.py: parameter sizing, digits with
    checksum, key generation, signing and verification; and what makes it a signature:
    completeness, incomparable digit vectors, and the reduction of a forgery to a
    preimage or a collision of the hash. */
module Winternitz {
  import opened ByteStrings
  import opened HashChains
  import opened BaseDigits

  datatype Wots = Wots(w: nat, log2w: nat, msgBits: nat, l1: nat, l2: nat) {
    /** Total number of chains. */
    function L(): nat { l1 + l2 }
  }

  function CeilDiv(a: nat, b: nat): nat
    requires b >= 1
  {
    (a + b - 1) / b
  }

  /** The sizing done by the constructor; other values of `w` fail its assertion. */
  function Configure(w: nat, msgBits: nat): Option<Wots> {
    if w == 4 || w == 16 || w == 256 then
      var log2w := BitLength(w) - 1;
      BitLengthBounds(w);
      assert log2w >= 1 by { KnownWidths(); }
      var l1 := CeilDiv(msgBits, log2w);
      Some(Wots(w, log2w, msgBits, l1, CeilDiv(BitLength(l1 * (w - 1)), log2w)))
    else None
  }

  /** A parameter set the constructor can produce. */
  ghost predicate Configured(p: Wots) {
    Configure(p.w, p.msgBits) == Some(p)
  }

  lemma KnownWidths()
    ensures BitLength(4) == 3 && BitLength(16) == 5 && BitLength(256) == 9
    ensures Pow(2, 2) == 4 && Pow(2, 4) == 16 && Pow(2, 8) == 256
  {
    assert BitLength(4) == 1 + BitLength(2) && BitLength(2) == 1 + BitLength(1);
    assert BitLength(16) == 1 + BitLength(8) && BitLength(8) == 1 + BitLength(4);
    assert BitLength(256) == 1 + BitLength(128) && BitLength(128) == 1 + BitLength(64);
    assert BitLength(64) == 1 + BitLength(32) && BitLength(32) == 1 + BitLength(16);
    assert Pow(2, 2) == 4;
    PowAdd(2, 2, 2);
    PowAdd(2, 4, 4);
  }

  lemma ConfiguredShape(p: Wots)
    requires Configured(p)
    ensures p.w >= 4 && p.log2w >= 2 && p.w == Pow(2, p.log2w)
    ensures p.l1 == CeilDiv(p.msgBits, p.log2w)
    ensures p.l2 == CeilDiv(BitLength(p.l1 * (p.w - 1)), p.log2w)
  {
    KnownWidths();
  }

  lemma CeilDivBounds(a: nat, b: nat)
    requires b >= 1
    ensures a <= b * CeilDiv(a, b)
    ensures a >= 1 ==> CeilDiv(a, b) >= 1 && b * (CeilDiv(a, b) - 1) < a
    ensures a == 0 ==> CeilDiv(a, b) == 0
  {
    DivMod(a + b - 1, b);
    var q := CeilDiv(a, b);
    if q >= 1 {
      MulMonotone(b, 1, q);
      assert b * (q - 1) == b * q - b;
    }
  }

  // ---- sizing ----

  /** The checksum always fits its digits: the loop that writes them never truncates. */
  lemma ChecksumFits(p: Wots, ds: seq<nat>)
    requires Configured(p)
    requires |ds| == p.l1 && forall i :: 0 <= i < |ds| ==> ds[i] < p.w
    ensures Checksum(ds, p.w) < Pow(p.w, p.l2)
  {
    ConfiguredShape(p);
    ChecksumBound(ds, p.w);
    var top := p.l1 * (p.w - 1);
    BitLengthBounds(top);
    CeilDivBounds(BitLength(top), p.log2w);
    PowMonotone(2, BitLength(top), p.log2w * p.l2);
    PowMul(2, p.log2w, p.l2);
  }

  /** A number of `bits` bits needs exactly `n` digits of `k` bits each. */
  lemma DigitsBracket(top: nat, bits: nat, k: nat, n: nat)
    requires bits >= 1 && Pow(2, bits - 1) <= top < Pow(2, bits)
    requires n >= 1 && k * (n - 1) <= bits - 1 && bits <= k * n
    ensures Pow(Pow(2, k), n - 1) <= top < Pow(Pow(2, k), n)
  {
    PowMonotone(2, bits, k * n);
    PowMonotone(2, k * (n - 1), bits - 1);
    PowMul(2, k, n);
    PowMul(2, k, n - 1);
  }

  lemma RoundedBitLengthIsLogarithm(top: nat, w: nat, k: nat, n: nat)
    requires top >= 1 && w >= 2 && k >= 1 && w == Pow(2, k)
    requires n == CeilDiv(BitLength(top), k)
    ensures n == FloorLog(w, top) + 1
  {
    hide *;
    BitLengthBounds(top);
    CeilDivBounds(BitLength(top), k);
    DigitsBracket(top, BitLength(top), k, n);
    FloorLogUnique(w, top, n);
  }

  lemma TopChecksumPositive(l1: nat, w: nat)
    requires l1 >= 1 && w >= 2
    ensures l1 * (w - 1) >= 1
  {
    MulMonotone(w - 1, 1, l1);
  }

  /** l2 is len_2 = floor(log_w(len_1 * (w - 1))) + 1 of section 3.1.1 of RFC 8391. */
  lemma ChecksumDigitsAgreeWithRfc8391(p: Wots)
    requires Configured(p) && p.msgBits >= 1
    ensures p.l1 * (p.w - 1) >= 1
    ensures p.l2 == FloorLog(p.w, p.l1 * (p.w - 1)) + 1
  {
    ConfiguredShape(p);
    hide *;
    CeilDivBounds(p.msgBits, p.log2w);
    TopChecksumPositive(p.l1, p.w);
    RoundedBitLengthIsLogarithm(p.l1 * (p.w - 1), p.w, p.log2w, p.l2);
  }

  // ---- digits ----

  function MessageDigits(p: Wots, digest: Bytes): (ds: seq<nat>)
    requires p.w >= 2
    ensures |ds| == p.l1
    ensures forall i :: 0 <= i < p.l1 ==> ds[i] < p.w
  {
    Reverse(LowDigits(BigEndianValue(digest), p.w, p.l1))
  }

  function ChecksumDigits(p: Wots, digest: Bytes): (ds: seq<nat>)
    requires p.w >= 2
    ensures |ds| == p.l2
    ensures forall i :: 0 <= i < p.l2 ==> ds[i] < p.w
  {
    Reverse(LowDigits(Checksum(MessageDigits(p, digest), p.w), p.w, p.l2))
  }

  /** The digit vector that is signed: message digits, then checksum digits. */
  function Digits(p: Wots, digest: Bytes): (ds: seq<nat>)
    requires p.w >= 2
    ensures |ds| == p.L()
    ensures forall i :: 0 <= i < p.L() ==> ds[i] < p.w
  {
    MessageDigits(p, digest) + ChecksumDigits(p, digest)
  }

  /** One digit loop: mask off the low digit, shift, repeat. */
  method PeelDigits(p: Wots, start: nat, count: nat) returns (ds: seq<nat>)
    requires Configured(p)
    ensures p.w >= 2 && ds == LowDigits(start, p.w, count)
  {
    ConfiguredShape(p);
    hide *;
    ds := [];
    var val: nat := start;
    for i := 0 to count
      invariant LowDigits(start, p.w, count) == ds + LowDigits(val, p.w, count - i)
    {
      MaskAndShift(val, p.log2w);
      LowDigitsStep(val, p.w, count - i);
      ds := ds + [BitAnd(val, p.w - 1)];
      val := ShiftRight(val, p.log2w);
    }
    LowDigitsStep(val, p.w, 0);
  }

  lemma ReverseTwice<T>(s: seq<T>)
    ensures Reverse(Reverse(s)) == s
  {
  }

  /** Most significant first: the message digits spell the low part of the digest, and the checksum
      digits the checksum. */
  lemma DigitsSpellDigest(p: Wots, digest: Bytes)
    requires Configured(p)
    ensures p.w >= 2 && Pow(p.w, p.l1) >= 1
    ensures var ds := Digits(p, digest);
            && Value(Reverse(ds[..p.l1]), p.w) == BigEndianValue(digest) % Pow(p.w, p.l1)
            && Value(Reverse(ds[p.l1..]), p.w) == Checksum(ds[..p.l1], p.w)
  {
    ConfiguredShape(p);
    var ds := Digits(p, digest);
    assert ds[..p.l1] == MessageDigits(p, digest) && ds[p.l1..] == ChecksumDigits(p, digest);
    ChecksumFits(p, MessageDigits(p, digest));
    hide Configured, Configure, LowDigits, Checksum, Value, Reverse, Pow;
    var c := Checksum(MessageDigits(p, digest), p.w);
    ReverseTwice(LowDigits(BigEndianValue(digest), p.w, p.l1));
    ReverseTwice(LowDigits(c, p.w, p.l2));
    LowDigitsSpell(BigEndianValue(digest), p.w, p.l1);
    ValueOfLowDigits(c, p.w, p.l2);
  }

  method ComputeDigits(p: Wots, digest: Bytes) returns (ds: seq<nat>)
    requires Configured(p)
    ensures p.w >= 2 && ds == Digits(p, digest)
    ensures |ds| == p.l1 + p.l2 && Pow(p.w, p.l1) >= 1
    ensures Value(Reverse(ds[..p.l1]), p.w) == BigEndianValue(digest) % Pow(p.w, p.l1)
    ensures Value(Reverse(ds[p.l1..]), p.w) == Checksum(ds[..p.l1], p.w)
  {
    DigitsSpellDigest(p, digest);
    ConfiguredShape(p);
    var low := PeelDigits(p, BigEndianValue(digest), p.l1);
    var digits := Reverse(low);
    var csum := 0;
    for i := 0 to |digits|
      invariant csum + Checksum(digits[i..], p.w) == Checksum(digits, p.w)
    {
      csum := csum + (p.w - 1 - digits[i]);
      assert digits[i..][1..] == digits[i + 1..];
    }
    var clow := PeelDigits(p, csum, p.l2);
    ds := digits + Reverse(clow);
  }

  lemma ReverseInjective<T>(a: seq<T>, b: seq<T>)
    requires Reverse(a) == Reverse(b)
    ensures a == b
  {
    assert |a| == |b|;
    forall i | 0 <= i < |a| ensures a[i] == b[i] {
      assert Reverse(a)[|a| - 1 - i] == a[i];
      assert Reverse(b)[|a| - 1 - i] == b[i];
    }
  }

  /** Digits that only rise lower the checksum, so one of its digits drops. */
  lemma ChecksumDrop(p: Wots, d1: Bytes, d2: Bytes) returns (i: nat)
    requires Configured(p) && p.w >= 2
    requires MessageDigits(p, d1) != MessageDigits(p, d2)
    requires forall k :: 0 <= k < p.l1 ==> MessageDigits(p, d1)[k] <= MessageDigits(p, d2)[k]
    ensures i < p.l2 && ChecksumDigits(p, d2)[i] < ChecksumDigits(p, d1)[i]
  {
    hide Configured, MessageDigits, LowDigits, Checksum, Value;
    var m1, m2 := MessageDigits(p, d1), MessageDigits(p, d2);
    RaisingLowersChecksum(m1, m2, p.w);
    ChecksumFits(p, m1);
    ChecksumFits(p, m2);
    var c1 := LowDigits(Checksum(m1, p.w), p.w, p.l2);
    var c2 := LowDigits(Checksum(m2, p.w), p.w, p.l2);
    ValueOfLowDigits(Checksum(m1, p.w), p.w, p.l2);
    ValueOfLowDigits(Checksum(m2, p.w), p.w, p.l2);
    var j := SmallerValueHasSmallerDigit(c1, c2, p.w);
    i := p.l2 - 1 - j;
    assert Reverse(c1)[i] == c1[j] && Reverse(c2)[i] == c2[j];
  }

  /** Different message digits force a strict drop somewhere in the second vector. */
  lemma DigitDrop(p: Wots, d1: Bytes, d2: Bytes) returns (i: nat)
    requires Configured(p) && p.w >= 2
    requires MessageDigits(p, d1) != MessageDigits(p, d2)
    ensures i < p.L() && Digits(p, d2)[i] < Digits(p, d1)[i]
  {
    hide Configured, MessageDigits, ChecksumDigits;
    if k :| 0 <= k < p.l1 && MessageDigits(p, d2)[k] < MessageDigits(p, d1)[k] {
      i := k;
    } else {
      var j := ChecksumDrop(p, d1, d2);
      i := p.l1 + j;
    }
  }

  /** Digit vectors with checksum are incomparable: neither lies above the other,
      exactly when the signed message digits differ. */
  lemma DigitVectorsIncomparable(p: Wots, d1: Bytes, d2: Bytes)
    requires Configured(p) && p.w >= 2
    ensures MessageDigits(p, d1) != MessageDigits(p, d2)
       <==> exists i :: 0 <= i < p.L() && Digits(p, d1)[i] < Digits(p, d2)[i]
    ensures MessageDigits(p, d1) != MessageDigits(p, d2)
       <==> exists i :: 0 <= i < p.L() && Digits(p, d2)[i] < Digits(p, d1)[i]
  {
    if MessageDigits(p, d1) != MessageDigits(p, d2) {
      var i := DigitDrop(p, d1, d2);
      var j := DigitDrop(p, d2, d1);
    }
  }

  /** When the message digits cover the whole digest they determine it. */
  lemma DigitsDetermineDigest(p: Wots, d1: Bytes, d2: Bytes)
    requires Configured(p) && p.w >= 2
    requires |d1| == |d2| && 8 * |d1| <= p.msgBits
    requires MessageDigits(p, d1) == MessageDigits(p, d2)
    ensures d1 == d2
  {
    ConfiguredShape(p);
    CeilDivBounds(p.msgBits, p.log2w);
    BigEndianBound(d1);
    BigEndianBound(d2);
    KnownWidths();
    PowMul(2, 8, |d1|);
    PowMonotone(2, 8 * |d1|, p.log2w * p.l1);
    PowMul(2, p.log2w, p.l1);
    ReverseInjective(LowDigits(BigEndianValue(d1), p.w, p.l1), LowDigits(BigEndianValue(d2), p.w, p.l1));
    ValueOfLowDigits(BigEndianValue(d1), p.w, p.l1);
    ValueOfLowDigits(BigEndianValue(d2), p.w, p.l1);
    BigEndianInjective(d1, d2);
  }

  // ---- keys and signatures ----

  /** Secret chain starts; the index is written in two bytes, so at most 65536 chains. */
  function SecretKey(p: Wots, h: Hash, seed: Bytes): Option<seq<Bytes>> {
    if p.L() > 0x1_0000 then None
    else Some(seq(p.L(), i requires 0 <= i < p.L() => h(seed + [i / 256, i % 256])))
  }

  /** Two chains of one key, or of the keys of two seeds of one length, that start alike give a
      collision. */
  lemma StartsAreOwn(p: Wots, h: Hash, seed: Bytes, i: nat, seed': Bytes, j: nat) returns (a: Bytes, b: Bytes)
    requires |seed| == |seed'| && p.L() <= 0x1_0000 && i < p.L() && j < p.L() && !(seed == seed' && i == j)
    requires var sk, sk' := SecretKey(p, h, seed), SecretKey(p, h, seed');
             sk.Some? && sk'.Some? && |sk.value| == |sk'.value| == p.L() && sk.value[i] == sk'.value[j]
    ensures Collision(h, a, b)
  {
    a, b := seed + [i / 256, i % 256], seed' + [j / 256, j % 256];
    assert a[..|seed|] == seed && b[..|seed|] == seed';
    assert a[|seed|] == i / 256 && b[|seed|] == j / 256;
    assert a[|seed| + 1] == i % 256 && b[|seed| + 1] == j % 256;
  }

  function PublicKey(p: Wots, h: Hash, sk: seq<Bytes>): seq<Bytes>
    requires p.w >= 1
  {
    seq(|sk|, i requires 0 <= i < |sk| => Chain(h, sk[i], p.w - 1))
  }

  function Sign(p: Wots, h: Hash, sk: seq<Bytes>, msg: Bytes): Option<seq<Bytes>>
    requires p.w >= 2
  {
    var d := Digits(p, h(msg));
    if |sk| < p.L() then None
    else Some(seq(p.L(), i requires 0 <= i < p.L() => Chain(h, sk[i], d[i])))
  }

  /** Verification returns a boolean, or raises IndexError on a short list. */
  datatype Outcome = Accept | Reject | IndexFault

  /** Chain `i` of the signature, walked on from digit `d[i]`, ends on the public key. */
  predicate ChainLands(w: nat, h: Hash, pk: seq<Bytes>, sig: seq<Bytes>, d: seq<nat>, i: nat)
    requires i < |d| && i < |sig| && i < |pk| && d[i] < w
  {
    Chain(h, sig[i], w - 1 - d[i]) == pk[i]
  }

  /** The first `n` chains land. */
  ghost predicate ChainsLand(w: nat, h: Hash, pk: seq<Bytes>, sig: seq<Bytes>, d: seq<nat>, n: nat)
    requires n <= |d| && n <= |sig| && n <= |pk|
    requires forall i :: 0 <= i < |d| ==> d[i] < w
  {
    forall i :: 0 <= i < n ==> ChainLands(w, h, pk, sig, d, i)
  }

  /** Both lists are long enough and every chain lands. */
  ghost predicate DigitsVerify(w: nat, h: Hash, pk: seq<Bytes>, sig: seq<Bytes>, d: seq<nat>)
    requires forall i :: 0 <= i < |d| ==> d[i] < w
  {
    |sig| >= |d| && |pk| >= |d| && ChainsLand(w, h, pk, sig, d, |d|)
  }

  /** What verification promises for a message. */
  ghost predicate Verifies(p: Wots, h: Hash, pk: seq<Bytes>, msg: Bytes, sig: seq<Bytes>)
    requires p.w >= 2
  {
    DigitsVerify(p.w, h, pk, sig, Digits(p, h(msg)))
  }

  /** How many positions both lists have. */
  function Common(pk: seq<Bytes>, sig: seq<Bytes>): nat {
    if |pk| <= |sig| then |pk| else |sig|
  }

  method Verify(p: Wots, h: Hash, pk: seq<Bytes>, msg: Bytes, sig: seq<Bytes>) returns (r: Outcome)
    requires Configured(p)
    ensures p.w >= 2
    ensures r == Accept <==> Verifies(p, h, pk, msg, sig)
    ensures r == IndexFault <==>
            (Common(pk, sig) < p.L() && ChainsLand(p.w, h, pk, sig, Digits(p, h(msg)), Common(pk, sig)))
  {
    ConfiguredShape(p);
    var d := ComputeDigits(p, h(msg));
    r := VerifyDigits(p.w, h, pk, sig, d);
  }

  /** The chain loop of verification, over digits already computed. */
  method VerifyDigits(w: nat, h: Hash, pk: seq<Bytes>, sig: seq<Bytes>, d: seq<nat>) returns (r: Outcome)
    requires forall i :: 0 <= i < |d| ==> d[i] < w
    ensures r == Accept <==> DigitsVerify(w, h, pk, sig, d)
    ensures r == IndexFault <==>
            (Common(pk, sig) < |d| && ChainsLand(w, h, pk, sig, d, Common(pk, sig)))
  {
    for i := 0 to |d|
      invariant i <= Common(pk, sig) && ChainsLand(w, h, pk, sig, d, i)
    {
      if i >= |sig| || i >= |pk| {
        return IndexFault;
      }
      var end := WalkChain(h, sig[i], w - 1 - d[i]);
      if end != pk[i] {
        assert !ChainLands(w, h, pk, sig, d, i);
        return Reject;
      }
    }
    return Accept;
  }

  /** Signing fails exactly when there are too few chain starts, and otherwise the signature
      verifies under the key it was made for. */
  lemma StartsVerify(p: Wots, h: Hash, sk: seq<Bytes>, msg: Bytes)
    requires p.w >= 2
    ensures var sig := Sign(p, h, sk, msg);
            && (sig.None? <==> |sk| < p.L())
            && (sig.Some? ==> Verifies(p, h, PublicKey(p, h, sk), msg, sig.value))
  {
    var d := Digits(p, h(msg));
    if |sk| >= p.L() {
      forall i | 0 <= i < p.L()
        ensures ChainLands(p.w, h, PublicKey(p, h, sk), Sign(p, h, sk, msg).value, d, i)
      {
        ChainAdd(h, sk[i], d[i], p.w - 1 - d[i]);
      }
    }
  }

  /** Completeness, from the seed on: key generation fails exactly when a chain's index needs
      more than two bytes, and otherwise every message signed with its key verifies. */
  lemma SignaturesVerify(p: Wots, h: Hash, seed: Bytes, msg: Bytes)
    requires p.w >= 2
    ensures SecretKey(p, h, seed).None? <==> p.L() > 0x1_0000
    ensures var sk := SecretKey(p, h, seed);
            sk.Some? ==>
              && Sign(p, h, sk.value, msg).Some?
              && Verifies(p, h, PublicKey(p, h, sk.value), msg, Sign(p, h, sk.value, msg).value)
  {
    var sk := SecretKey(p, h, seed);
    if sk.Some? {
      StartsVerify(p, h, sk.value, msg);
    }
  }

  // ---- forgery ----

  /** A second accepted signature, for a message with other digits, breaks the hash. */
  lemma ForgeryBreaksHash(p: Wots, h: Hash, pk: seq<Bytes>, msg: Bytes, sig: seq<Bytes>,
                          msg': Bytes, forged: seq<Bytes>) returns (k: Break)
    requires Configured(p) && p.w >= 2
    requires Verifies(p, h, pk, msg, sig) && Verifies(p, h, pk, msg', forged)
    requires MessageDigits(p, h(msg)) != MessageDigits(p, h(msg'))
    ensures ValidBreak(h, sig, forged, k)
  {
    hide Configured;
    var i := DigitDrop(p, h(msg), h(msg'));
    var d, d' := Digits(p, h(msg)), Digits(p, h(msg'));
    assert ChainLands(p.w, h, pk, sig, d, i) && ChainLands(p.w, h, pk, forged, d', i);
    k := EarlierStartBreaks(h, i, sig, forged, p.w - 1 - d[i], p.w - 1 - d'[i]);
  }

  /** With a digest no longer than the message size, any two different messages accepted
      under one key break the hash: no escape through equal digits is left. */
  lemma TwoMessagesBreakHash(p: Wots, h: Hash, n: nat, pk: seq<Bytes>, msg: Bytes, sig: seq<Bytes>,
                             msg': Bytes, forged: seq<Bytes>) returns (k: Break)
    requires Configured(p) && p.w >= 2
    requires OutputsHave(h, n) && 8 * n <= p.msgBits
    requires Verifies(p, h, pk, msg, sig) && Verifies(p, h, pk, msg', forged)
    requires msg != msg'
    ensures ValidBreak(h, sig, forged, k)
  {
    if MessageDigits(p, h(msg)) == MessageDigits(p, h(msg')) {
      DigitsDetermineDigest(p, h(msg), h(msg'));
      k := Collides(msg, msg');
    } else {
      k := ForgeryBreaksHash(p, h, pk, msg, sig, msg', forged);
    }
  }
}
