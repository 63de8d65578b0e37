/** Byte strings, integer encodings and the bit-level arithmetic that the sources
    write with masks and shifts.  A hash is a parameter: an arbitrary function on
    byte strings, so that everything proved here holds for every hash. */
module ByteStrings {

  type Byte = x: int | 0 <= x < 256
  type Bytes = seq<Byte>
  type Hash = Bytes -> Bytes

  /** A 32-byte digest. */
  type Digest = b: Bytes | |b| == 32 witness seq(32, i => 0)

  datatype Option<+T> = None | Some(value: T)

  /** Every output of `h` has exactly `n` bytes. */
  ghost predicate OutputsHave(h: Hash, n: nat) {
    forall x: Bytes :: |h(x)| == n
  }

  /** `a` and `b` are an explicit collision of `h`. */
  ghost predicate Collision(h: Hash, a: Bytes, b: Bytes) {
    a != b && h(a) == h(b)
  }

  function Pow(b: nat, e: nat): nat {
    if e == 0 then 1 else b * Pow(b, e - 1)
  }

  /** Powers of two, in the form the solver keeps linear. */
  function Exp2(n: nat): (p: nat)
    ensures p >= 1
    ensures n >= 1 ==> p % 2 == 0
  {
    if n == 0 then 1 else 2 * Exp2(n - 1)
  }

  lemma {:induction false} Exp2Monotone(m: nat, n: nat)
    requires m <= n
    ensures Exp2(m) <= Exp2(n)
  {
    if m < n {
      Exp2Monotone(m, n - 1);
    }
  }

  lemma {:induction false} Exp2IsPow(n: nat)
    ensures Exp2(n) == Pow(2, n)
  {
    if n > 0 {
      Exp2IsPow(n - 1);
    }
  }

  lemma {:induction false} PowAdd(b: nat, m: nat, n: nat)
    ensures Pow(b, m + n) == Pow(b, m) * Pow(b, n)
  {
    if m == 0 {
    } else {
      PowAdd(b, m - 1, n);
      assert Pow(b, m + n) == b * Pow(b, m - 1 + n);
      assert b * (Pow(b, m - 1) * Pow(b, n)) == (b * Pow(b, m - 1)) * Pow(b, n);
    }
  }

  lemma {:induction false} PowMul(b: nat, m: nat, n: nat)
    ensures Pow(Pow(b, m), n) == Pow(b, m * n)
  {
    if n == 0 {
      assert m * n == 0;
    } else {
      PowMul(b, m, n - 1);
      PowAdd(b, m, m * (n - 1));
      assert m * n == m + m * (n - 1);
    }
  }

  lemma {:induction false} PowMonotone(b: nat, m: nat, n: nat)
    requires b >= 1 && m <= n
    ensures 1 <= Pow(b, m) <= Pow(b, n)
  {
    if n == 0 {
    } else if m == 0 {
      PowMonotone(b, 0, n - 1);
      assert 1 * Pow(b, n - 1) <= b * Pow(b, n - 1);
    } else {
      PowMonotone(b, m - 1, n - 1);
      MulMonotone(b, Pow(b, m - 1), Pow(b, n - 1));
      MulMonotone(Pow(b, m - 1), 1, b);
    }
  }

  lemma MulMonotone(k: nat, x: nat, y: nat)
    requires x <= y
    ensures k * x <= k * y
  {
    assert k * y == k * x + k * (y - x);
  }

  /** The division identity, stated once so that proofs can name it. */
  lemma DivMod(v: nat, w: nat)
    requires w >= 1
    ensures v == w * (v / w) + v % w && 0 <= v % w < w
  {
  }

  // ---- little- and big-endian integers ----

  function LittleEndian(v: nat, n: nat): (b: Bytes)
    ensures |b| == n
  {
    if n == 0 then [] else [v % 256] + LittleEndian(v / 256, n - 1)
  }

  function FromLittleEndian(b: Bytes): nat {
    if b == [] then 0 else b[0] + 256 * FromLittleEndian(b[1..])
  }

  lemma {:induction false} LittleEndianRoundTrip(v: nat, n: nat)
    requires v < Pow(256, n)
    ensures FromLittleEndian(LittleEndian(v, n)) == v
  {
    if n > 0 {
      LittleEndianRoundTrip(v / 256, n - 1);
      assert LittleEndian(v, n)[1..] == LittleEndian(v / 256, n - 1);
    }
  }

  lemma {:induction false} LittleEndianOfValue(b: Bytes)
    ensures FromLittleEndian(b) < Pow(256, |b|)
    ensures LittleEndian(FromLittleEndian(b), |b|) == b
  {
    if b != [] {
      var rest := FromLittleEndian(b[1..]);
      LittleEndianOfValue(b[1..]);
      var v := FromLittleEndian(b);
      assert v == b[0] + 256 * rest;
      assert v % 256 == b[0] && v / 256 == rest;
      assert LittleEndian(v, |b|) == [b[0]] + LittleEndian(rest, |b| - 1);
      assert b == [b[0]] + b[1..];
    }
  }

  lemma LittleEndianInjective(u: nat, v: nat, n: nat)
    requires u < Pow(256, n) && v < Pow(256, n)
    requires LittleEndian(u, n) == LittleEndian(v, n)
    ensures u == v
  {
    LittleEndianRoundTrip(u, n);
    LittleEndianRoundTrip(v, n);
  }

  /** Python's int.from_bytes(b, "big"). */
  function BigEndianValue(b: Bytes): nat {
    if b == [] then 0 else 256 * BigEndianValue(b[..|b| - 1]) + b[|b| - 1]
  }

  lemma {:induction false} BigEndianBound(b: Bytes)
    ensures BigEndianValue(b) < Pow(256, |b|)
  {
    if b != [] {
      BigEndianBound(b[..|b| - 1]);
    }
  }

  lemma {:induction false} BigEndianInjective(a: Bytes, b: Bytes)
    requires |a| == |b| && BigEndianValue(a) == BigEndianValue(b)
    ensures a == b
  {
    if a != [] {
      BigEndianInjective(a[..|a| - 1], b[..|b| - 1]);
      assert a == a[..|a| - 1] + [a[|a| - 1]];
      assert b == b[..|b| - 1] + [b[|b| - 1]];
    }
  }

  // ---- masks and bit lengths ----

  /** Bitwise AND on naturals. */
  function BitAnd(a: nat, b: nat): nat {
    if a == 0 || b == 0 then 0
    else 2 * BitAnd(a / 2, b / 2) + (if a % 2 == 1 && b % 2 == 1 then 1 else 0)
  }

  /** Python's int.bit_length(). */
  function BitLength(n: nat): nat {
    if n == 0 then 0 else 1 + BitLength(n / 2)
  }

  lemma {:induction false} BitLengthBounds(n: nat)
    ensures n < Pow(2, BitLength(n))
    ensures n > 0 ==> BitLength(n) >= 1 && Pow(2, BitLength(n) - 1) <= n
  {
    if n > 0 {
      BitLengthBounds(n / 2);
      if n / 2 == 0 {
        assert BitLength(n) == 1;
      }
    }
  }

  /** Masking with 2^k - 1 is the remainder modulo 2^k. */
  lemma {:induction false} MaskIsMod(v: nat, k: nat)
    ensures Pow(2, k) >= 1
    ensures BitAnd(v, Pow(2, k) - 1) == v % Pow(2, k)
  {
    PowMonotone(2, 0, k);
    if k == 0 {
    } else {
      PowMonotone(2, 0, k - 1);
      var p := Pow(2, k - 1);
      MaskIsMod(v / 2, k - 1);
      assert (2 * p - 1) / 2 == p - 1 && (2 * p - 1) % 2 == 1;
      ModDouble(v, p);
      if v == 0 {
        ModSmall(0, 2 * p);
      }
    }
  }

  /** The shift `v >> k`. */
  function ShiftRight(v: nat, k: nat): nat {
    PowMonotone(2, 0, k);
    v / Pow(2, k)
  }

  /** One mask and one shift are the remainder and the quotient by 2^k. */
  lemma MaskAndShift(v: nat, k: nat)
    ensures Pow(2, k) >= 1
    ensures BitAnd(v, Pow(2, k) - 1) == v % Pow(2, k) && ShiftRight(v, k) == v / Pow(2, k)
  {
    MaskIsMod(v, k);
  }

  lemma ModSmall(v: nat, m: nat)
    requires v < m
    ensures v % m == v
  {
    DivMod(v, m);
    if v / m >= 1 {
      MulMonotone(m, 1, v / m);
    } else {
      assert v / m == 0;
    }
  }

  lemma ModUnique(v: nat, m: nat, q: nat, r: nat)
    requires v == m * q + r && r < m
    ensures v % m == r
  {
    DivMod(v, m);
    var q', r' := v / m, v % m;
    assert m * (q + 1) == m * q + m && m * (q' + 1) == m * q' + m;
    if q < q' {
      MulMonotone(m, q + 1, q');
    } else if q' < q {
      MulMonotone(m, q' + 1, q);
    }
  }

  lemma ModDouble(v: nat, p: nat)
    requires p >= 1
    ensures v % (2 * p) == 2 * ((v / 2) % p) + v % 2
  {
    DivMod(v / 2, p);
    var q, r := (v / 2) / p, (v / 2) % p;
    assert v == 2 * (p * q + r) + v % 2;
    assert 2 * (p * q) == (2 * p) * q;
    ModUnique(v, 2 * p, q, 2 * r + v % 2);
  }

  predicate IsPowerOfTwo(n: nat) {
    n == 1 || (n >= 2 && n % 2 == 0 && IsPowerOfTwo(n / 2))
  }

  /** The test `x & (x - 1)` vanishes exactly on the powers of two. */
  lemma {:induction false} PowerOfTwoTest(x: nat)
    requires x >= 1
    ensures BitAnd(x, x - 1) == 0 <==> IsPowerOfTwo(x)
  {
    if x == 1 {
    } else if x % 2 == 1 {
      BitAndSelf(x / 2);
      assert (x - 1) / 2 == x / 2;
    } else {
      PowerOfTwoTest(x / 2);
      assert (x - 1) / 2 == x / 2 - 1;
    }
  }

  lemma {:induction false} BitAndSelf(x: nat)
    ensures BitAnd(x, x) == x
  {
    if x > 0 {
      BitAndSelf(x / 2);
    }
  }

  lemma {:induction false} Exp2IsPowerOfTwo(k: nat)
    ensures IsPowerOfTwo(Exp2(k))
  {
    if k > 0 {
      Exp2IsPowerOfTwo(k - 1);
    }
  }

  // ---- buffers and sequences ----

  /** Copy `src` into a buffer at `off`. */
  method WriteAt(buf: array<Byte>, off: nat, src: Bytes)
    requires off + |src| <= buf.Length
    modifies buf
    ensures buf[..] == old(buf[..off]) + src + old(buf[off + |src|..])
  {
    for i := 0 to |src|
      invariant forall j :: 0 <= j < buf.Length ==>
        buf[j] == if off <= j < off + i then src[j - off] else old(buf[j])
    {
      buf[off + i] := src[i];
    }
  }

  function Reverse<T>(s: seq<T>): (r: seq<T>)
    ensures |r| == |s|
    ensures forall i :: 0 <= i < |s| ==> r[i] == s[|s| - 1 - i]
  {
    if s == [] then [] else Reverse(s[1..]) + [s[0]]
  }
}
