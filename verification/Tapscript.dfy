/** The tapscript code generator of tapscript_wots.py and the stack machine it targets.
    The generator is correct: for every witness, running the emitted script has the same
    outcome as verifying the witness as a Winternitz signature for the committed digits. */
module Tapscript {
  import opened ByteStrings
  import opened HashChains
  import Winternitz

  /** A script command: one of the three opcodes the generator uses, or a data push. */
  datatype Cmd = OpHash160 | OpEqualVerify | OpOne | Push(data: Bytes)

  type Stack = seq<Bytes>

  /** Resource limits of tapscript (section "Resource limits" of BIP 342). */
  const MAX_STACK_ITEMS: nat := 1000
  const MAX_ELEMENT_SIZE: nat := 520

  function PushItem(stack: Stack, x: Bytes): Option<Stack> {
    if |x| > MAX_ELEMENT_SIZE || |stack| + 1 > MAX_STACK_ITEMS then None else Some(stack + [x])
  }

  /** One command; None is script failure.  The top of the stack is the last element. */
  function Step(h: Hash, c: Cmd, stack: Stack): Option<Stack> {
    var n := |stack|;
    match c
    case OpHash160 => if n < 1 then None else Some(stack[..n - 1] + [h(stack[n - 1])])
    case OpEqualVerify => if n < 2 || stack[n - 2] != stack[n - 1] then None else Some(stack[..n - 2])
    case OpOne => PushItem(stack, [1])
    case Push(x) => PushItem(stack, x)
  }

  function Run(h: Hash, script: seq<Cmd>, stack: Stack): Option<Stack> {
    if script == [] then Some(stack)
    else match Step(h, script[0], stack)
         case None => None
         case Some(next) => Run(h, script[1..], next)
  }

  /** The boolean value of a stack element: zero and negative zero are false. */
  predicate Truthy(x: Bytes) {
    exists i :: 0 <= i < |x| && x[i] != 0 && !(i == |x| - 1 && x[i] == 0x80)
  }

  /** Script validation: limits on the witness stack, no failing command, and exactly
      one element left, which is true. */
  predicate Accepts(h: Hash, script: seq<Cmd>, wit: Stack) {
    && |wit| <= MAX_STACK_ITEMS
    && (forall i :: 0 <= i < |wit| ==> |wit[i]| <= MAX_ELEMENT_SIZE)
    && var end := Run(h, script, wit);
       end.Some? && |end.value| == 1 && Truthy(end.value[0])
  }

  // ---- the generator ----

  function HashOps(n: nat): (cmds: seq<Cmd>)
    ensures |cmds| == n
  {
    seq(n, i => OpHash160)
  }

  /** The block of one chain: finish walking it, push the key element, compare. */
  function Block(w: nat, pkElement: Bytes, digit: nat): seq<Cmd>
    requires digit < w
  {
    HashOps(w - 1 - digit) + [Push(pkElement), OpEqualVerify]
  }

  /** Blocks for chains n-1 down to 0. */
  function Blocks(w: nat, pk: seq<Bytes>, digits: seq<nat>, n: nat): seq<Cmd>
    requires n <= |pk| && n <= |digits|
    requires forall i :: 0 <= i < |digits| ==> digits[i] < w
  {
    if n == 0 then []
    else Block(w, pk[n - 1], digits[n - 1]) + Blocks(w, pk, digits, n - 1)
  }

  method VerifierScript(w: nat, pk: seq<Bytes>, digits: seq<nat>) returns (cmds: seq<Cmd>)
    requires |pk| <= |digits|
    requires forall i :: 0 <= i < |digits| ==> digits[i] < w
    ensures cmds == Blocks(w, pk, digits, |pk|) + [OpOne]
  {
    cmds := [];
    var i := |pk|;
    while i > 0
      invariant 0 <= i <= |pk|
      invariant Blocks(w, pk, digits, |pk|) == cmds + Blocks(w, pk, digits, i)
    {
      i := i - 1;
      ghost var before := cmds;
      var remaining := w - 1 - digits[i];
      cmds := cmds + HashOps(remaining);
      cmds := cmds + [Push(pk[i])];
      cmds := cmds + [OpEqualVerify];
      assert cmds == before + Block(w, pk[i], digits[i]);
    }
    cmds := cmds + [OpOne];
  }

  // ---- correctness of the generator ----

  lemma {:induction false} RunAppend(h: Hash, a: seq<Cmd>, b: seq<Cmd>, stack: Stack)
    ensures Run(h, a + b, stack)
         == if Run(h, a, stack).None? then None else Run(h, b, Run(h, a, stack).value)
    decreases |a|
  {
    if a == [] {
      assert a + b == b;
    } else {
      assert (a + b)[1..] == a[1..] + b;
      match Step(h, a[0], stack)
      case None =>
      case Some(next) => RunAppend(h, a[1..], b, next);
    }
  }

  lemma {:induction false} RunHashOps(h: Hash, n: nat, stack: Stack, x: Bytes)
    ensures Run(h, HashOps(n), stack + [x]) == Some(stack + [Chain(h, x, n)])
    decreases n
  {
    if n > 0 {
      assert HashOps(n)[1..] == HashOps(n - 1);
      assert (stack + [x])[..|stack|] == stack;
      assert Step(h, OpHash160, stack + [x]) == Some(stack + [h(x)]);
      RunHashOps(h, n - 1, stack, h(x));
    }
  }

  lemma RunCompare(h: Hash, stack: Stack, y: Bytes, z: Bytes)
    requires |stack| + 2 <= MAX_STACK_ITEMS
    ensures Run(h, [Push(z), OpEqualVerify], stack + [y])
         == if |z| <= MAX_ELEMENT_SIZE && y == z then Some(stack) else None
  {
    var cmds := [Push(z), OpEqualVerify];
    assert cmds[1..] == [OpEqualVerify] && cmds[1..][1..] == [];
    if |z| <= MAX_ELEMENT_SIZE {
      var s := stack + [y] + [z];
      assert Step(h, cmds[0], stack + [y]) == Some(s);
      assert s[..|s| - 2] == stack;
      assert Step(h, OpEqualVerify, s) == if y == z then Some(stack) else None;
      if y == z {
        assert Run(h, [OpEqualVerify], s) == Run(h, [], stack);
      }
    }
  }

  /** One block consumes one signature element, or fails the script. */
  lemma RunBlock(h: Hash, w: nat, pkElement: Bytes, digit: nat, stack: Stack, x: Bytes)
    requires digit < w && |stack| + 2 <= MAX_STACK_ITEMS
    ensures Run(h, Block(w, pkElement, digit), stack + [x])
         == if |pkElement| <= MAX_ELEMENT_SIZE && Chain(h, x, w - 1 - digit) == pkElement
            then Some(stack) else None
  {
    RunAppend(h, HashOps(w - 1 - digit), [Push(pkElement), OpEqualVerify], stack + [x]);
    RunHashOps(h, w - 1 - digit, stack, x);
    RunCompare(h, stack, Chain(h, x, w - 1 - digit), pkElement);
  }

  /** On an empty stack the first block fails: it hashes nothing, or compares one element. */
  lemma RunBlockEmpty(h: Hash, w: nat, pkElement: Bytes, digit: nat)
    requires digit < w
    ensures Run(h, Block(w, pkElement, digit), []) == None
  {
    var n := w - 1 - digit;
    var block := Block(w, pkElement, digit);
    if n > 0 {
      assert block[0] == OpHash160;
    } else {
      assert block == [Push(pkElement), OpEqualVerify];
      assert block[1..] == [OpEqualVerify];
    }
  }

  /** The element of the stack that chain `i` of `n` consumes: the stack top belongs to
      the highest chain. */
  predicate BlockLands(h: Hash, w: nat, pk: seq<Bytes>, digits: seq<nat>, n: nat, stack: Stack, i: nat)
    requires i < n <= |stack| && n <= |pk| && n <= |digits| && digits[i] < w
  {
    |pk[i]| <= MAX_ELEMENT_SIZE && Chain(h, stack[|stack| - n + i], w - 1 - digits[i]) == pk[i]
  }

  ghost predicate AllLand(h: Hash, w: nat, pk: seq<Bytes>, digits: seq<nat>, n: nat, stack: Stack)
    requires n <= |pk| && n <= |digits| && n <= |stack|
    requires forall i :: 0 <= i < |digits| ==> digits[i] < w
  {
    forall i :: 0 <= i < n ==> BlockLands(h, w, pk, digits, n, stack, i)
  }

  /** Splitting off the block that runs first. */
  lemma AllLandSplit(h: Hash, w: nat, pk: seq<Bytes>, digits: seq<nat>, n: nat, below: Stack, x: Bytes)
    requires 1 <= n <= |pk| && n <= |digits| && n <= |below| + 1
    requires forall i :: 0 <= i < |digits| ==> digits[i] < w
    ensures AllLand(h, w, pk, digits, n, below + [x])
       <==> && AllLand(h, w, pk, digits, n - 1, below)
            && |pk[n - 1]| <= MAX_ELEMENT_SIZE && Chain(h, x, w - 1 - digits[n - 1]) == pk[n - 1]
  {
    var stack, m := below + [x], n - 1;
    assert stack[|stack| - n + m] == x;
    assert BlockLands(h, w, pk, digits, n, stack, m)
      <==> (|pk[m]| <= MAX_ELEMENT_SIZE && Chain(h, x, w - 1 - digits[m]) == pk[m]);
    forall i | 0 <= i < m
      ensures BlockLands(h, w, pk, digits, n, stack, i) <==> BlockLands(h, w, pk, digits, m, below, i)
    {
      assert stack[|stack| - n + i] == below[|below| - m + i];
    }
  }

  lemma {:induction false} RunBlocks(h: Hash, w: nat, pk: seq<Bytes>, digits: seq<nat>, n: nat, stack: Stack)
    requires n <= |pk| && n <= |digits| && |stack| + 1 <= MAX_STACK_ITEMS
    requires forall i :: 0 <= i < |digits| ==> digits[i] < w
    ensures Run(h, Blocks(w, pk, digits, n), stack)
         == if |stack| >= n && AllLand(h, w, pk, digits, n, stack)
            then Some(stack[..|stack| - n]) else None
    decreases n
  {
    if n == 0 {
      assert stack[..|stack|] == stack;
    } else {
      var block, rest := Block(w, pk[n - 1], digits[n - 1]), Blocks(w, pk, digits, n - 1);
      RunAppend(h, block, rest, stack);
      if stack == [] {
        RunBlockEmpty(h, w, pk[n - 1], digits[n - 1]);
      } else {
        var below, x := stack[..|stack| - 1], stack[|stack| - 1];
        assert stack == below + [x];
        RunBlock(h, w, pk[n - 1], digits[n - 1], below, x);
        RunBlocks(h, w, pk, digits, n - 1, below);
        if |stack| >= n {
          AllLandSplit(h, w, pk, digits, n, below, x);
          assert below[..|below| - (n - 1)] == stack[..|stack| - n];
        }
      }
    }
  }

  lemma {:induction false} ChainStaysSmall(h: Hash, x: Bytes, n: nat)
    requires forall y: Bytes :: |h(y)| <= MAX_ELEMENT_SIZE
    requires |x| <= MAX_ELEMENT_SIZE
    ensures |Chain(h, x, n)| <= MAX_ELEMENT_SIZE
    decreases n
  {
    if n > 0 {
      ChainStaysSmall(h, h(x), n - 1);
    }
  }

  /** The final opcode leaves one true element exactly when the blocks emptied the stack. */
  lemma RunLastPush(h: Hash, stack: Stack)
    requires |stack| + 1 <= MAX_STACK_ITEMS
    ensures Run(h, [OpOne], stack) == Some(stack + [[1]])
    ensures Truthy([1])
  {
    assert [OpOne][1..] == [];
    assert [1][0] != 0;
  }

  /** Compiler correctness for any digits and any witness.  The script accepts exactly the
      witnesses of |pk| elements within the limits that the reference verifier accepts. */
  lemma ScriptMeansVerification(h: Hash, w: nat, pk: seq<Bytes>, digits: seq<nat>, wit: Stack)
    requires forall y: Bytes :: |h(y)| <= MAX_ELEMENT_SIZE
    requires |pk| == |digits| && forall i :: 0 <= i < |digits| ==> digits[i] < w
    requires |pk| < MAX_STACK_ITEMS
    ensures Accepts(h, Blocks(w, pk, digits, |pk|) + [OpOne], wit)
       <==> && |wit| == |pk|
            && (forall i :: 0 <= i < |wit| ==> |wit[i]| <= MAX_ELEMENT_SIZE)
            && Winternitz.DigitsVerify(w, h, pk, wit, digits)
  {
    var n := |pk|;
    var blocks := Blocks(w, pk, digits, n);
    RunAppend(h, blocks, [OpOne], wit);
    if |wit| == MAX_STACK_ITEMS {
      FullStackFails(h, w, pk, digits, wit);
    } else if |wit| < MAX_STACK_ITEMS {
      RunBlocks(h, w, pk, digits, n, wit);
      var end := Run(h, blocks, wit);
      if end.Some? {
        RunLastPush(h, end.value);
      }
      if |wit| == n && forall i :: 0 <= i < |wit| ==> |wit[i]| <= MAX_ELEMENT_SIZE {
        forall i | 0 <= i < n
          ensures BlockLands(h, w, pk, digits, n, wit, i) <==> Winternitz.ChainLands(w, h, pk, wit, digits, i)
        {
          ChainStaysSmall(h, wit[i], w - 1 - digits[i]);
        }
      }
    }
  }

  /** On a full stack a block fails at its push. */
  lemma FullStackFailsBlock(h: Hash, w: nat, pkElement: Bytes, digit: nat, below: Stack, x: Bytes)
    requires digit < w && |below| + 1 == MAX_STACK_ITEMS
    ensures Run(h, Block(w, pkElement, digit), below + [x]) == None
  {
    hide HashOps, Chain;
    var r := w - 1 - digit;
    var compare := [Push(pkElement), OpEqualVerify];
    RunAppend(h, HashOps(r), compare, below + [x]);
    RunHashOps(h, r, below, x);
    assert compare[0] == Push(pkElement);
  }

  /** A witness that fills the stack leaves no room for the first push. */
  lemma FullStackFails(h: Hash, w: nat, pk: seq<Bytes>, digits: seq<nat>, wit: Stack)
    requires |pk| == |digits| && forall i :: 0 <= i < |digits| ==> digits[i] < w
    requires |wit| == MAX_STACK_ITEMS
    ensures Run(h, Blocks(w, pk, digits, |pk|) + [OpOne], wit) == None
  {
    hide Block;
    var n := |pk|;
    RunAppend(h, Blocks(w, pk, digits, n), [OpOne], wit);
    if n == 0 {
      assert [OpOne][0] == OpOne;
    } else {
      var below, x := wit[..|wit| - 1], wit[|wit| - 1];
      assert wit == below + [x];
      FullStackFailsBlock(h, w, pk[n - 1], digits[n - 1], below, x);
      RunAppend(h, Block(w, pk[n - 1], digits[n - 1]), Blocks(w, pk, digits, n - 1), wit);
    }
  }

  // ---- the deployed configuration ----

  const DEMO_W: nat := 16
  const DEMO_MSG_BITS: nat := 32

  /** build_wots(): width 16 and a 32-bit message give 8 + 2 chains. */
  lemma DemoChains()
    ensures Winternitz.Configure(DEMO_W, DEMO_MSG_BITS) == Some(Winternitz.Wots(16, 4, 32, 8, 2))
  {
    Winternitz.KnownWidths();
    assert BitLength(120) == 1 + BitLength(60) && BitLength(60) == 1 + BitLength(30);
    assert BitLength(30) == 1 + BitLength(15) && BitLength(15) == 1 + BitLength(7);
    assert BitLength(7) == 1 + BitLength(3) && BitLength(3) == 1 + BitLength(1);
  }

  /** The witness cmd_spend builds: the signature elements in order, or with `forge` the
      first element hashed once more. */
  function SpendItems(h: Hash, sig: seq<Bytes>, forge: bool): seq<Bytes>
    requires |sig| > 0
  {
    if forge then sig[0 := h(sig[0])] else sig
  }

  /** The spend built by cmd_spend is accepted, at every width and message size whose
      chains fit the stack. */
  lemma SpendIsAccepted(h: Hash, p: Winternitz.Wots, sk: seq<Bytes>, commitment: Bytes)
    requires Winternitz.Configured(p) && p.w >= 2 && 0 < p.L() < MAX_STACK_ITEMS
    requires forall y: Bytes :: |h(y)| <= MAX_ELEMENT_SIZE
    requires |sk| == p.L() && forall i :: 0 <= i < |sk| ==> |sk[i]| <= MAX_ELEMENT_SIZE
    ensures Winternitz.Sign(p, h, sk, commitment).Some?
    ensures Accepts(h,
                    Blocks(p.w, Winternitz.PublicKey(p, h, sk), Winternitz.Digits(p, h(commitment)), p.L()) + [OpOne],
                    SpendItems(h, Winternitz.Sign(p, h, sk, commitment).value, false))
  {
    var digits := Winternitz.Digits(p, h(commitment));
    Winternitz.StartsVerify(p, h, sk, commitment);
    var sig := Winternitz.Sign(p, h, sk, commitment).value;
    forall i | 0 <= i < |sig| ensures |sig[i]| <= MAX_ELEMENT_SIZE {
      ChainStaysSmall(h, sk[i], digits[i]);
    }
    ScriptMeansVerification(h, p.w, Winternitz.PublicKey(p, h, sk), digits, sig);
  }

  /** With `forge` a spend is accepted only if the hash has a fixed point at the replaced
      element or a collision, which is returned. */
  lemma ForgedSpendBreaksHash(h: Hash, w: nat, pk: seq<Bytes>, digits: seq<nat>, sig: seq<Bytes>)
    returns (a: Bytes, b: Bytes)
    requires forall y: Bytes :: |h(y)| <= MAX_ELEMENT_SIZE
    requires 0 < |pk| == |digits| < MAX_STACK_ITEMS && forall i :: 0 <= i < |digits| ==> digits[i] < w
    requires Accepts(h, Blocks(w, pk, digits, |pk|) + [OpOne], sig) && |sig| > 0
    requires Accepts(h, Blocks(w, pk, digits, |pk|) + [OpOne], SpendItems(h, sig, true))
    ensures h(sig[0]) == sig[0] || Collision(h, a, b)
  {
    a, b := [], [];
    var items := SpendItems(h, sig, true);
    ScriptMeansVerification(h, w, pk, digits, sig);
    ScriptMeansVerification(h, w, pk, digits, items);
    if items[0] != sig[0] {
      assert Winternitz.ChainLands(w, h, pk, items, digits, 0);
      assert Winternitz.ChainLands(w, h, pk, sig, digits, 0);
      a, b := MergingChainsCollide(h, items[0], sig[0], w - 1 - digits[0]);
    }
  }
}
