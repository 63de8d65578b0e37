/** Base-w digit lists: values, uniqueness and the order argument behind a checksum. */
module BaseDigits {
  import opened ByteStrings

  /** The `n` low base-w digits of `v`, least significant first. */
  function LowDigits(v: nat, w: nat, n: nat): (ds: seq<nat>)
    requires w >= 2
    ensures |ds| == n
    ensures forall i :: 0 <= i < n ==> ds[i] < w
    decreases n
  {
    if n == 0 then [] else [v % w] + LowDigits(v / w, w, n - 1)
  }

  lemma LowDigitsStep(v: nat, w: nat, n: nat)
    requires w >= 2
    ensures n == 0 ==> LowDigits(v, w, n) == []
    ensures n > 0 ==> LowDigits(v, w, n) == [v % w] + LowDigits(v / w, w, n - 1)
  {
  }

  /** The number a digit list denotes, least significant digit first. */
  function Value(ds: seq<nat>, w: nat): nat {
    if ds == [] then 0 else ds[0] + w * Value(ds[1..], w)
  }

  /** No information is lost when the number fits. */
  lemma {:induction false} ValueOfLowDigits(v: nat, w: nat, n: nat)
    requires w >= 2 && v < Pow(w, n)
    ensures Value(LowDigits(v, w, n), w) == v
    decreases n
  {
    if n > 0 {
      DivMod(v, w);
      if v / w >= Pow(w, n - 1) {
        MulMonotone(w, Pow(w, n - 1), v / w);
        assert false;
      }
      ValueOfLowDigits(v / w, w, n - 1);
      assert LowDigits(v, w, n)[1..] == LowDigits(v / w, w, n - 1);
    }
  }

  /** And otherwise it is the low part that remains. */
  lemma {:induction false} LowDigitsSpell(v: nat, w: nat, n: nat)
    requires w >= 2
    ensures Pow(w, n) >= 1 && Value(LowDigits(v, w, n), w) == v % Pow(w, n)
    decreases n
  {
    PowMonotone(w, 0, n);
    if n == 0 {
      assert v % 1 == 0;
    } else {
      var p := Pow(w, n - 1);
      LowDigitsSpell(v / w, w, n - 1);
      assert LowDigits(v, w, n)[1..] == LowDigits(v / w, w, n - 1);
      DivMod(v, w);
      DivMod(v / w, p);
      var q, r := (v / w) / p, (v / w) % p;
      assert v == w * (p * q + r) + v % w;
      SpellStep(w, p, q, r, v % w);
      ModUnique(v, w * p, q, v % w + w * r);
    }
  }

  lemma SpellStep(w: nat, p: nat, q: nat, r: nat, d: nat)
    requires d < w && r < p
    ensures w * (p * q + r) + d == (w * p) * q + (d + w * r) && d + w * r < w * p
  {
    assert w * (p * q + r) == (w * p) * q + w * r;
    MulMonotone(w, r + 1, p);
    assert w * (r + 1) == w * r + w;
  }

  /** A digit list that is nowhere smaller denotes a number that is not smaller. */
  lemma {:induction false} ValueMonotone(a: seq<nat>, b: seq<nat>, w: nat)
    requires |a| == |b|
    requires forall i :: 0 <= i < |a| ==> a[i] <= b[i]
    ensures Value(a, w) <= Value(b, w)
  {
    if a != [] {
      ValueMonotone(a[1..], b[1..], w);
      MulMonotone(w, Value(a[1..], w), Value(b[1..], w));
    }
  }

  /** If `b` denotes the smaller number then some digit of `b` is strictly smaller. */
  lemma SmallerValueHasSmallerDigit(a: seq<nat>, b: seq<nat>, w: nat) returns (i: nat)
    requires |a| == |b| && Value(b, w) < Value(a, w)
    ensures i < |a| && b[i] < a[i]
  {
    if forall j :: 0 <= j < |a| ==> a[j] <= b[j] {
      ValueMonotone(a, b, w);
      assert false;
    }
    i :| 0 <= i < |a| && b[i] < a[i];
  }

  /** The checksum of a digit list: the total distance to the top digit. */
  function Checksum(ds: seq<nat>, w: nat): nat
    requires forall i :: 0 <= i < |ds| ==> ds[i] < w
  {
    if ds == [] then 0 else (w - 1 - ds[0]) + Checksum(ds[1..], w)
  }

  lemma {:induction false} ChecksumBound(ds: seq<nat>, w: nat)
    requires forall i :: 0 <= i < |ds| ==> ds[i] < w
    ensures Checksum(ds, w) <= |ds| * (w - 1)
  {
    if ds != [] {
      ChecksumBound(ds[1..], w);
      assert |ds| * (w - 1) == (w - 1) + (|ds| - 1) * (w - 1);
    }
  }

  /** Raising digits, at least one of them strictly, lowers the checksum. */
  lemma {:induction false} RaisingLowersChecksum(a: seq<nat>, b: seq<nat>, w: nat)
    requires |a| == |b|
    requires forall i :: 0 <= i < |a| ==> a[i] <= b[i] < w
    ensures Checksum(b, w) <= Checksum(a, w)
    ensures a != b ==> Checksum(b, w) < Checksum(a, w)
  {
    if a != [] {
      RaisingLowersChecksum(a[1..], b[1..], w);
      assert a == [a[0]] + a[1..] && b == [b[0]] + b[1..];
    }
  }

  /** floor(log_w(v)), the logarithm in the definition of len_2. */
  function FloorLog(w: nat, v: nat): nat
    requires w >= 2 && v >= 1
    decreases v
  {
    DivMod(v, w);
    if v < w then 0 else SmallerQuotient(v, w); 1 + FloorLog(w, v / w)
  }

  lemma SmallerQuotient(v: nat, w: nat)
    requires w >= 2 && v >= w
    ensures 1 <= v / w < v
  {
    DivMod(v, w);
    var q := v / w;
    MulMonotone(q, 2, w);
    assert q * 2 <= q * w == w * q;
  }

  /** The integer characterisation of the logarithm. */
  lemma {:induction false} FloorLogBounds(w: nat, v: nat)
    requires w >= 2 && v >= 1
    ensures Pow(w, FloorLog(w, v)) <= v < Pow(w, FloorLog(w, v) + 1)
    decreases v
  {
    if v < w {
      assert Pow(w, 1) == w * Pow(w, 0);
    } else {
      SmallerQuotient(v, w);
      FloorLogBounds(w, v / w);
      DivMod(v, w);
      var e := FloorLog(w, v / w);
      MulMonotone(w, Pow(w, e), v / w);
      MulMonotone(w, v / w + 1, Pow(w, e + 1));
      assert w * (v / w + 1) == w * (v / w) + w;
    }
  }

  /** At most one exponent brackets a number. */
  lemma FloorLogUnique(w: nat, v: nat, n: nat)
    requires w >= 2 && v >= 1
    requires n >= 1 && Pow(w, n - 1) <= v < Pow(w, n)
    ensures n == FloorLog(w, v) + 1
  {
    FloorLogBounds(w, v);
    var e := FloorLog(w, v) + 1;
    if n < e {
      PowMonotone(w, n, e - 1);
    } else if e < n {
      PowMonotone(w, e, n - 1);
    }
  }
}
