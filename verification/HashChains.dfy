/** Hash chains: the one primitive under every Winternitz variant of the repository. */
module HashChains {
  import opened ByteStrings

  /** `h` applied `n` times to `x`. */
  function Chain(h: Hash, x: Bytes, n: nat): Bytes
    decreases n
  {
    if n == 0 then x else Chain(h, h(x), n - 1)
  }

  /** The loop that all three sources write: reassign the value `n` times. */
  method WalkChain(h: Hash, x: Bytes, n: nat) returns (y: Bytes)
    ensures y == Chain(h, x, n)
  {
    y := x;
    for i := 0 to n
      invariant Chain(h, x, n) == Chain(h, y, n - i)
    {
      y := h(y);
    }
  }

  lemma {:induction false} ChainAdd(h: Hash, x: Bytes, m: nat, n: nat)
    ensures Chain(h, Chain(h, x, m), n) == Chain(h, x, m + n)
    decreases m
  {
    if m > 0 {
      ChainAdd(h, h(x), m - 1, n);
    }
  }

  lemma {:induction false} ChainLength(h: Hash, x: Bytes, n: nat, len: nat)
    requires OutputsHave(h, len) && |x| == len
    ensures |Chain(h, x, n)| == len
    decreases n
  {
    if n > 0 {
      ChainLength(h, h(x), n - 1, len);
    }
  }

  /** Two chains of equal length that start apart and end together contain a collision. */
  lemma {:induction false} MergingChainsCollide(h: Hash, x: Bytes, y: Bytes, n: nat)
    returns (a: Bytes, b: Bytes)
    requires x != y && Chain(h, x, n) == Chain(h, y, n)
    ensures Collision(h, a, b)
    decreases n
  {
    if h(x) == h(y) {
      a, b := x, y;
    } else {
      a, b := MergingChainsCollide(h, h(x), h(y), n - 1);
    }
  }

  /** The two ways a forgery breaks the hash: a value that hashes forward, in at least
      one step, to an element of the signature already revealed; or a collision. */
  datatype Break =
    | Preimage(chain: nat, x: Bytes, steps: nat)
    | Collides(a: Bytes, b: Bytes)

  ghost predicate ValidBreak(h: Hash, sig: seq<Bytes>, forged: seq<Bytes>, k: Break) {
    match k
    case Preimage(i, x, n) => i < |sig| && i < |forged| && n >= 1 && x == forged[i] && Chain(h, x, n) == sig[i]
    case Collides(a, b) => Collision(h, a, b)
  }

  /** Two starts that reach one chain end, the forged one from further back. */
  lemma EarlierStartBreaks(h: Hash, i: nat, sig: seq<Bytes>, forged: seq<Bytes>, left: nat, left': nat)
    returns (k: Break)
    requires i < |sig| && i < |forged| && left < left'
    requires Chain(h, sig[i], left) == Chain(h, forged[i], left')
    ensures ValidBreak(h, sig, forged, k)
  {
    var y := Chain(h, forged[i], left' - left);
    ChainAdd(h, forged[i], left' - left, left);
    if y == sig[i] {
      k := Preimage(i, forged[i], left' - left);
    } else {
      var a, b := MergingChainsCollide(h, y, sig[i], left);
      k := Collides(a, b);
    }
  }
}
