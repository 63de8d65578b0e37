/** The stagenet scanner of soq-scan.ts, run against a chain that moves on between any two
    of its calls.  A node shows `view(t)` to the call made at time `t`. */
module Scan {
  import opened ByteStrings
  import opened Sums
  import Receipt

  datatype Output = Output(address: Option<string>, script: string, shors: nat)
  datatype Input = Coinbase | Spend(txid: string, vout: nat)
  datatype Tx = Tx(txid: string, inputs: seq<Input>, outputs: seq<Output>)

  /** Block `h` is `blocks[h]`; the tip height is the last index. */
  datatype Chain = Chain(mempool: seq<Tx>, blocks: seq<seq<Tx>>)

  /** txCarriesScript */
  predicate Carries(tx: Tx, script: string) {
    exists i :: 0 <= i < |tx.outputs| && tx.outputs[i].script == script
  }

  // ---- how a chain moves on ----

  /** Blocks are only appended, and a transaction leaves the mempool only into a block
      that was not there before. */
  ghost predicate Extends(c: Chain, c': Chain) {
    && c.blocks <= c'.blocks
    && forall tx :: tx in c.mempool ==> tx in c'.mempool || MinedSince(tx, c', |c.blocks|)
  }

  /** `tx` is in a block at height `from` or above. */
  ghost predicate MinedSince(tx: Tx, c: Chain, from: nat) {
    exists h :: from <= h < |c.blocks| && tx in c.blocks[h]
  }

  lemma ExtendsReflexive(c: Chain)
    ensures Extends(c, c)
  {
  }

  lemma ExtendsTransitive(a: Chain, b: Chain, c: Chain)
    requires Extends(a, b) && Extends(b, c)
    ensures Extends(a, c)
  {
    forall tx | tx in a.mempool && tx !in c.mempool
      ensures MinedSince(tx, c, |a.blocks|)
    {
      if tx in b.mempool {
        assert MinedSince(tx, c, |b.blocks|);
        var h :| |b.blocks| <= h < |c.blocks| && tx in c.blocks[h];
        assert |a.blocks| <= h;
      } else {
        assert MinedSince(tx, b, |a.blocks|);
        var h :| |a.blocks| <= h < |b.blocks| && tx in b.blocks[h];
        assert c.blocks[h] == b.blocks[h];
      }
    }
  }

  /** Nothing is lost while a scan runs: no reorg, no eviction. */
  ghost predicate Evolves(view: nat -> Chain) {
    forall s: nat, t: nat :: s <= t ==> Extends(view(s), view(t))
  }

  // ---- the contract of a recovery scan ----

  datatype ScanResult = Found(tx: Tx) | NotFound | Threw

  function ScanFrom(sinceHeight: nat): nat {
    if sinceHeight < 2 then 0 else sinceHeight - 2
  }

  /** No transaction of `c`, in the mempool or in a block from the scan's first height on,
      carries the script. */
  ghost predicate NoneCarries(c: Chain, script: string, sinceHeight: nat) {
    && (forall tx :: tx in c.mempool ==> !Carries(tx, script))
    && (forall h, tx :: 0 <= h < |c.blocks| && sinceHeight <= h + 2 && tx in c.blocks[h] ==> !Carries(tx, script))
  }

  ghost predicate OnChain(tx: Tx, c: Chain) {
    tx in c.mempool || MinedSince(tx, c, 0)
  }

  /** What a scan that starts on `before` and ends on `after` may report. */
  ghost predicate ScanContract(before: Chain, after: Chain, script: string, sinceHeight: nat, r: ScanResult) {
    match r
    case Found(tx) => Carries(tx, script) && OnChain(tx, after)
    case NotFound => sinceHeight <= |before.blocks| ==> NoneCarries(before, script, sinceHeight)
    case Threw => true
  }

  /** getrawtransaction: it succeeds for a transaction that is still in the mempool. */
  function RawTransaction(c: Chain, tx: Tx): Option<Tx> {
    if tx in c.mempool then Some(tx) else None
  }

  /** A call has failed by then. */
  ghost predicate SomeDown(down: nat -> bool, end: nat) {
    exists t: nat :: t <= end && down(t)
  }

  /** The scan has ended: it reports what it may, and it has thrown only out of a call that failed
      or on a chain without blocks. */
  ghost predicate Ended(view: nat -> Chain, down: nat -> bool, script: string, sinceHeight: nat, r: ScanResult,
                        end: nat)
  {
    && ScanContract(view(0), view(end), script, sinceHeight, r)
    && (r == Threw ==> |view(0).blocks| == 0 || SomeDown(down, end))
  }

  /** findMintTx.  Every call takes one tick of `view`; `down(t)` says that a call other
      than the per-transaction one fails at that time, which throws out of the scan. */
  method FindMintTx(view: nat -> Chain, down: nat -> bool, script: string, sinceHeight: nat) returns (r: ScanResult)
    requires Evolves(view)
    ensures exists end: nat :: Ended(view, down, script, sinceHeight, r, end)
    ensures (forall t: nat :: !down(t)) && |view(0).blocks| > 0 ==> r != Threw
  {
    if down(0) {
      r := Threw;
      assert Ended(view, down, script, sinceHeight, r, 0);
      return;
    }
    var listed := view(0).mempool;
    var t := 1;
    for i := 0 to |listed|
      invariant t == i + 1
      invariant forall j :: 0 <= j < i ==>
                              !Carries(listed[j], script) || MinedSince(listed[j], view(t), |view(0).blocks|)
    {
      var raw := RawTransaction(view(t), listed[i]);
      if raw.Some? && Carries(raw.value, script) {
        r := Found(raw.value);
        assert Ended(view, down, script, sinceHeight, r, t);
        return;
      }
      assert Extends(view(0), view(t));
      assert listed[i] in view(0).mempool;
      t := t + 1;
      forall j | 0 <= j < i + 1 && Carries(listed[j], script)
        ensures MinedSince(listed[j], view(t), |view(0).blocks|)
      {
        StaysMined(listed[j], view(t - 1), view(t), |view(0).blocks|);
      }
    }
    var seen := view(t);
    assert Extends(view(0), seen);
    if down(t) || |seen.blocks| == 0 {
      r := Threw;
      assert Ended(view, down, script, sinceHeight, r, t);
      return;
    }
    var tip := |seen.blocks| - 1;
    t := t + 1;
    r, t := ScanBlocks(view, down, script, ScanFrom(sinceHeight), tip, t, seen);
    if r == NotFound && sinceHeight <= |view(0).blocks| {
      forall tx | tx in view(0).mempool ensures !Carries(tx, script) {
        var j :| 0 <= j < |listed| && listed[j] == tx;
      }
    }
    assert Ended(view, down, script, sinceHeight, r, t);
  }

  lemma StaysMined(tx: Tx, c: Chain, c': Chain, from: nat)
    requires Extends(c, c') && MinedSince(tx, c, from)
    ensures MinedSince(tx, c', from)
  {
    var h :| from <= h < |c.blocks| && tx in c.blocks[h];
    assert c'.blocks[h] == c.blocks[h];
  }

  /** The block-by-block pass. */
  method ScanBlocks(view: nat -> Chain, down: nat -> bool, script: string, from: nat, tip: nat, start: nat,
                    ghost seen: Chain) returns (r: ScanResult, t: nat)
    requires Evolves(view) && start >= 1 && seen == view(start - 1) && tip == |seen.blocks| - 1
    ensures match r
            case Found(tx) => Carries(tx, script) && OnChain(tx, view(t))
            case NotFound => forall h, tx :: from <= h <= tip && tx in seen.blocks[h] ==> !Carries(tx, script)
            case Threw => down(t)
  {
    t := start;
    var h := from;
    while h <= tip
      invariant t >= start
      invariant forall g, tx :: from <= g < h && g <= tip && tx in seen.blocks[g] ==> !Carries(tx, script)
      decreases tip + 1 - h
    {
      if down(t) {
        return Threw, t;
      }
      assert Extends(seen, view(t));
      var block := view(t).blocks[h];
      for i := 0 to |block|
        invariant forall j :: 0 <= j < i ==> !Carries(block[j], script)
      {
        if Carries(block[i], script) {
          assert MinedSince(block[i], view(t), 0);
          return Found(block[i]), t;
        }
      }
      t := t + 1;
      h := h + 1;
    }
    r := NotFound;
  }

  /** A scan that does not throw misses no transaction that carries the script and was in the
      mempool, or in a block above the claim height, when it began. */
  lemma FinishedMissesNothing(before: Chain, after: Chain, script: string, claimHeight: nat, r: ScanResult, tx: Tx)
    requires ScanContract(before, after, script, claimHeight, r) && r != Threw
    requires claimHeight < |before.blocks|
    requires Carries(tx, script)
    requires tx in before.mempool || MinedSince(tx, before, claimHeight + 1)
    ensures r.Found? && Carries(r.tx, script) && OnChain(r.tx, after)
  {
    if tx !in before.mempool {
      var h :| claimHeight + 1 <= h < |before.blocks| && tx in before.blocks[h];
      assert ScanFrom(claimHeight) <= h;
    }
  }

  /** Completeness of recovery under concurrent mining: while the node answers, the scan finds
      what the signer has broadcast since the claim. */
  lemma RecoveryMissesNothing(view: nat -> Chain, down: nat -> bool, script: string, claimHeight: nat, r: ScanResult,
                              end: nat, tx: Tx)
    requires Ended(view, down, script, claimHeight, r, end) && !SomeDown(down, end)
    requires claimHeight < |view(0).blocks|
    requires Carries(tx, script)
    requires tx in view(0).mempool || MinedSince(tx, view(0), claimHeight + 1)
    ensures r.Found? && Carries(r.tx, script) && OnChain(r.tx, view(end))
  {
    hide Carries, OnChain, MinedSince, SomeDown;
    FinishedMissesNothing(view(0), view(end), script, claimHeight, r, tx);
  }

  // ---- redemption scanning ----

  datatype RedemptionSpend = RedemptionSpend(txid: string, height: nat, spentCarriers: seq<Input>,
                                             tag: Option<Receipt.Tag>, paidShors: nat)

  function PaidTo(outputs: seq<Output>, address: string): nat {
    if outputs == [] then 0
    else PaidTo(outputs[..|outputs| - 1], address)
         + (if outputs[|outputs| - 1].address == Some(address) then outputs[|outputs| - 1].shors else 0)
  }

  /** The tag of the first output that parses to one. */
  function FirstTag(outputs: seq<Output>): Option<Receipt.Tag> {
    if outputs == [] then None
    else
      var earlier := FirstTag(outputs[..|outputs| - 1]);
      if earlier.Some? then earlier else Receipt.TagFromScriptHex(outputs[|outputs| - 1].script)
  }

  function SpentCarriers(inputs: seq<Input>, isCarrier: Input -> bool): seq<Input> {
    if inputs == [] then []
    else SpentCarriers(inputs[..|inputs| - 1], isCarrier)
         + (if inputs[|inputs| - 1].Spend? && isCarrier(inputs[|inputs| - 1]) then [inputs[|inputs| - 1]] else [])
  }

  /** What is reported about a transaction that pays the address. */
  function SpendOf(tx: Tx, height: nat, address: string, isCarrier: Input -> bool): RedemptionSpend {
    RedemptionSpend(tx.txid, height, SpentCarriers(tx.inputs, isCarrier), FirstTag(tx.outputs),
                    PaidTo(tx.outputs, address))
  }

  /** The redemptions of one block up to its first `n` transactions. */
  function BlockRedemptions(block: seq<Tx>, n: nat, height: nat, address: string, isCarrier: Input -> bool)
    : seq<RedemptionSpend>
    requires n <= |block|
  {
    if n == 0 then []
    else
      BlockRedemptions(block, n - 1, height, address, isCarrier)
      + (if PaidTo(block[n - 1].outputs, address) == 0 then [] else [SpendOf(block[n - 1], height, address, isCarrier)])
  }

  /** The redemptions of blocks from+1 .. upTo, in chain order. */
  function Redemptions(blocks: seq<seq<Tx>>, from: nat, upTo: nat, address: string, isCarrier: Input -> bool)
    : seq<RedemptionSpend>
    requires from <= upTo < |blocks|
    decreases upTo
  {
    if upTo == from then []
    else Redemptions(blocks, from, upTo - 1, address, isCarrier)
         + BlockRedemptions(blocks[upTo], |blocks[upTo]|, upTo, address, isCarrier)
  }

  method ReadOutputs(outputs: seq<Output>, address: string) returns (paidShors: nat, tag: Option<Receipt.Tag>)
    ensures paidShors == PaidTo(outputs, address) && tag == FirstTag(outputs)
  {
    paidShors, tag := 0, None;
    for i := 0 to |outputs|
      invariant paidShors == PaidTo(outputs[..i], address) && tag == FirstTag(outputs[..i])
    {
      assert outputs[..i + 1][..i] == outputs[..i];
      if outputs[i].address == Some(address) {
        paidShors := paidShors + outputs[i].shors;
      }
      if tag.None? {
        tag := Receipt.TagFromScriptHex(outputs[i].script);
      }
    }
    assert outputs[..|outputs|] == outputs;
  }

  // ---- what a report says, told without the loops ----

  /** `spent` are the inputs at the places `at`, which are those of the carriers, in order. */
  ghost predicate PicksCarriers(inputs: seq<Input>, isCarrier: Input -> bool, spent: seq<Input>, at: seq<nat>) {
    && |at| == |spent|
    && (forall i, j :: 0 <= i < j < |at| ==> at[i] < at[j])
    && (forall i :: 0 <= i < |at| ==> at[i] < |inputs| && spent[i] == inputs[at[i]])
    && (forall n: nat :: n in at <==> n < |inputs| && inputs[n].Spend? && isCarrier(inputs[n]))
  }

  function PayingOutputs(outputs: seq<Output>, address: string): map<nat, Output> {
    map n: nat | n < |outputs| && outputs[n].address == Some(address) :: outputs[n]
  }

  function ShorsOf(o: Output): nat {
    o.shors
  }

  function TagAt(outputs: seq<Output>, n: nat): Option<Receipt.Tag>
    requires n < |outputs|
  {
    Receipt.TagFromScriptHex(outputs[n].script)
  }

  /** The tag is that of the first output that has one. */
  predicate IsFirstTag(outputs: seq<Output>, tag: Option<Receipt.Tag>) {
    if tag.None? then forall n :: 0 <= n < |outputs| ==> TagAt(outputs, n).None?
    else exists n :: 0 <= n < |outputs| && TagAt(outputs, n) == tag
                     && forall m :: 0 <= m < n ==> TagAt(outputs, m).None?
  }

  predicate Pays(tx: Tx, address: string) {
    exists n :: 0 <= n < |tx.outputs| && tx.outputs[n].address == Some(address) && tx.outputs[n].shors > 0
  }

  ghost predicate IsReportOf(r: RedemptionSpend, tx: Tx, height: nat, address: string, isCarrier: Input -> bool) {
    && r.txid == tx.txid && r.height == height
    && (exists at :: PicksCarriers(tx.inputs, isCarrier, r.spentCarriers, at))
    && r.paidShors == SumBy(PayingOutputs(tx.outputs, address), ShorsOf)
    && IsFirstTag(tx.outputs, r.tag)
  }

  lemma {:induction false} CarriersPicked(inputs: seq<Input>, isCarrier: Input -> bool) returns (at: seq<nat>)
    ensures PicksCarriers(inputs, isCarrier, SpentCarriers(inputs, isCarrier), at)
  {
    if inputs == [] {
      at := [];
    } else {
      var n: nat := |inputs| - 1;
      var front := CarriersPicked(inputs[..n], isCarrier);
      at := if inputs[n].Spend? && isCarrier(inputs[n]) then front + [n] else front;
      OneMoreInput(inputs, isCarrier, SpentCarriers(inputs[..n], isCarrier), front);
    }
  }

  lemma OneMoreInput(inputs: seq<Input>, isCarrier: Input -> bool, spent: seq<Input>, at: seq<nat>)
    requires inputs != [] && PicksCarriers(inputs[..|inputs| - 1], isCarrier, spent, at)
    ensures var n: nat := |inputs| - 1;
            if inputs[n].Spend? && isCarrier(inputs[n])
            then PicksCarriers(inputs, isCarrier, spent + [inputs[n]], at + [n])
            else PicksCarriers(inputs, isCarrier, spent, at)
  {
    var front := inputs[..|inputs| - 1];
    forall n: nat | n < |front| ensures front[n] == inputs[n] {
    }
    forall n: nat | n in at ensures n < |front| {
    }
  }

  lemma PickedAreCarriers(inputs: seq<Input>, isCarrier: Input -> bool, spent: seq<Input>, at: seq<nat>, x: Input)
    requires PicksCarriers(inputs, isCarrier, spent, at)
    ensures x in spent <==> x in inputs && x.Spend? && isCarrier(x)
  {
    if x in inputs && x.Spend? && isCarrier(x) {
      var n: nat :| n < |inputs| && inputs[n] == x;
      assert n in at;
      var i :| 0 <= i < |at| && at[i] == n;
      assert spent[i] == x;
    }
    if x in spent {
      var i :| 0 <= i < |at| && spent[i] == x;
      assert at[i] in at;
    }
  }

  /** Only one list is picked so. */
  lemma {:induction false} PickedOnce(inputs: seq<Input>, isCarrier: Input -> bool, spent: seq<Input>, at: seq<nat>,
                                      spent': seq<Input>, at': seq<nat>)
    requires PicksCarriers(inputs, isCarrier, spent, at) && PicksCarriers(inputs, isCarrier, spent', at')
    ensures spent == spent'
  {
    IncreasingIsUnique(at, at');
  }

  lemma {:induction false} IncreasingIsUnique(a: seq<nat>, b: seq<nat>)
    requires forall i, j :: 0 <= i < j < |a| ==> a[i] < a[j]
    requires forall i, j :: 0 <= i < j < |b| ==> b[i] < b[j]
    requires forall n: nat :: n in a <==> n in b
    ensures a == b
  {
    if a == [] || b == [] {
      SomeIn(a);
      SomeIn(b);
    } else {
      var x, y := a[|a| - 1], b[|b| - 1];
      assert x in b && y in a;
      assert x == y;
      var front, front' := a[..|a| - 1], b[..|b| - 1];
      InFront(a);
      InFront(b);
      forall n: nat | n in front ensures n in front' {
        assert n in a;
      }
      forall n: nat | n in front' ensures n in front {
        assert n in b;
      }
      IncreasingIsUnique(front, front');
      assert a == a[..|a| - 1] + [x] && b == b[..|b| - 1] + [y];
    }
  }

  lemma SomeIn(a: seq<nat>)
    ensures a != [] ==> exists n: nat :: n in a
  {
    if a != [] {
      assert a[0] in a;
    }
  }

  lemma InFront(a: seq<nat>)
    requires a != [] && forall i, j :: 0 <= i < j < |a| ==> a[i] < a[j]
    ensures forall n: nat :: n in a <==> n in a[..|a| - 1] || n == a[|a| - 1]
    ensures a[|a| - 1] !in a[..|a| - 1]
  {
    assert a == a[..|a| - 1] + [a[|a| - 1]];
  }

  lemma {:induction false} PaidToIsSum(outputs: seq<Output>, address: string)
    ensures PaidTo(outputs, address) == SumBy(PayingOutputs(outputs, address), ShorsOf)
  {
    if outputs == [] {
      assert PayingOutputs(outputs, address) == map[];
    } else {
      var n: nat := |outputs| - 1;
      PaidToIsSum(outputs[..n], address);
      var paying, before := PayingOutputs(outputs, address), PayingOutputs(outputs[..n], address);
      if outputs[n].address == Some(address) {
        assert paying - {n} == before;
        SumSplit(paying, ShorsOf, n);
      } else {
        assert paying == before;
      }
    }
  }

  lemma {:induction false} PaidToPays(outputs: seq<Output>, address: string)
    ensures PaidTo(outputs, address) > 0 <==>
            exists n :: 0 <= n < |outputs| && outputs[n].address == Some(address) && outputs[n].shors > 0
  {
    if outputs != [] {
      var front, last := outputs[..|outputs| - 1], outputs[|outputs| - 1];
      PaidToPays(front, address);
      if n :| 0 <= n < |outputs| && outputs[n].address == Some(address) && outputs[n].shors > 0 {
        assert n < |front| ==> front[n] == outputs[n];
      }
    }
  }

  lemma {:induction false} FirstTagIsFirst(outputs: seq<Output>)
    ensures IsFirstTag(outputs, FirstTag(outputs))
  {
    hide Receipt.TagFromScriptHex;
    if outputs != [] {
      var front := outputs[..|outputs| - 1];
      FirstTagIsFirst(front);
      forall n: nat | n < |front| ensures TagAt(outputs, n) == TagAt(front, n) {
      }
      if FirstTag(front).Some? {
        var n :| 0 <= n < |front| && TagAt(front, n) == FirstTag(front)
                 && forall m :: 0 <= m < n ==> TagAt(front, m).None?;
        assert TagAt(outputs, n) == FirstTag(outputs);
      } else {
        assert TagAt(outputs, |outputs| - 1) == FirstTag(outputs);
      }
    }
  }

  /** The report of a transaction says this of it, and no other one does. */
  lemma SpendIsTheReport(r: RedemptionSpend, tx: Tx, height: nat, address: string, isCarrier: Input -> bool)
    ensures IsReportOf(r, tx, height, address, isCarrier) <==> r == SpendOf(tx, height, address, isCarrier)
  {
    hide PicksCarriers, PaidTo, FirstTag, SpentCarriers, IsFirstTag, SumBy;
    PaidToIsSum(tx.outputs, address);
    FirstTagIsFirst(tx.outputs);
    var at := CarriersPicked(tx.inputs, isCarrier);
    if IsReportOf(r, tx, height, address, isCarrier) {
      var at' :| PicksCarriers(tx.inputs, isCarrier, r.spentCarriers, at');
      PickedOnce(tx.inputs, isCarrier, r.spentCarriers, at', SpentCarriers(tx.inputs, isCarrier), at);
      OneFirstTag(tx.outputs, r.tag, FirstTag(tx.outputs));
    }
  }

  lemma OneFirstTag(outputs: seq<Output>, a: Option<Receipt.Tag>, b: Option<Receipt.Tag>)
    requires IsFirstTag(outputs, a) && IsFirstTag(outputs, b)
    ensures a == b
  {
    hide TagAt;
  }

  /** A transaction in the scanned blocks. */
  datatype Place = Place(height: nat, index: nat)

  predicate Before(a: Place, b: Place) {
    a.height < b.height || (a.height == b.height && a.index < b.index)
  }

  predicate IsReturn(blocks: seq<seq<Tx>>, from: nat, upTo: nat, address: string, at: Place) {
    && from < at.height <= upTo < |blocks| && at.index < |blocks[at.height]|
    && Pays(blocks[at.height][at.index], address)
  }

  /** `found` are the reports, in chain order, of the paying transactions of the scanned blocks:
      none is missed, none is made up, and none is told twice. */
  ghost predicate ListsReturns(blocks: seq<seq<Tx>>, from: nat, upTo: nat, address: string, isCarrier: Input -> bool,
                               found: seq<RedemptionSpend>, at: seq<Place>)
  {
    && |at| == |found|
    && (forall i, j :: 0 <= i < j < |at| ==> Before(at[i], at[j]))
    && (forall i :: 0 <= i < |at| ==>
          && IsReturn(blocks, from, upTo, address, at[i])
          && IsReportOf(found[i], blocks[at[i].height][at[i].index], at[i].height, address, isCarrier))
    && (forall p :: IsReturn(blocks, from, upTo, address, p) ==> p in at)
  }

  /** The same of one block, up to its first `n` transactions. */
  ghost predicate ListsBlock(block: seq<Tx>, n: nat, height: nat, address: string, isCarrier: Input -> bool,
                             found: seq<RedemptionSpend>, at: seq<nat>)
    requires n <= |block|
  {
    && |at| == |found|
    && (forall i, j :: 0 <= i < j < |at| ==> at[i] < at[j])
    && (forall i :: 0 <= i < |at| ==>
          at[i] < n && Pays(block[at[i]], address) && IsReportOf(found[i], block[at[i]], height, address, isCarrier))
    && (forall t: nat :: t < n && Pays(block[t], address) ==> t in at)
  }

  lemma {:induction false} BlockInOrder(block: seq<Tx>, n: nat, height: nat, address: string, isCarrier: Input -> bool)
    returns (at: seq<nat>)
    requires n <= |block|
    ensures ListsBlock(block, n, height, address, isCarrier, BlockRedemptions(block, n, height, address, isCarrier), at)
    decreases n
  {
    hide IsReportOf, SpendOf, PaidTo, Pays;
    if n == 0 {
      at := [];
    } else {
      at := BlockInOrder(block, n - 1, height, address, isCarrier);
      var tx := block[n - 1];
      PaysIsPaid(tx, address);
      if Pays(tx, address) {
        SpendIsTheReport(SpendOf(tx, height, address, isCarrier), tx, height, address, isCarrier);
        at := at + [n - 1];
      }
    }
  }

  lemma PaysIsPaid(tx: Tx, address: string)
    ensures Pays(tx, address) <==> PaidTo(tx.outputs, address) > 0
  {
    PaidToPays(tx.outputs, address);
  }

  function PlacesIn(height: nat, at: seq<nat>): (places: seq<Place>)
    ensures |places| == |at| && forall i :: 0 <= i < |at| ==> places[i] == Place(height, at[i])
  {
    seq(|at|, i requires 0 <= i < |at| => Place(height, at[i]))
  }

  lemma {:induction false} RedemptionsInOrder(blocks: seq<seq<Tx>>, from: nat, upTo: nat, address: string,
                                              isCarrier: Input -> bool) returns (at: seq<Place>)
    requires from <= upTo < |blocks|
    ensures ListsReturns(blocks, from, upTo, address, isCarrier,
                         Redemptions(blocks, from, upTo, address, isCarrier), at)
    decreases upTo
  {
    hide IsReportOf, BlockRedemptions, Pays;
    if upTo == from {
      at := [];
    } else {
      var before := RedemptionsInOrder(blocks, from, upTo - 1, address, isCarrier);
      var last := BlockInOrder(blocks[upTo], |blocks[upTo]|, upTo, address, isCarrier);
      at := before + PlacesIn(upTo, last);
      OneMoreBlock(blocks, from, upTo, address, isCarrier, Redemptions(blocks, from, upTo - 1, address, isCarrier),
                   before, BlockRedemptions(blocks[upTo], |blocks[upTo]|, upTo, address, isCarrier), last);
    }
  }

  lemma OneMoreBlock(blocks: seq<seq<Tx>>, from: nat, upTo: nat, address: string, isCarrier: Input -> bool,
                     found: seq<RedemptionSpend>, before: seq<Place>, more: seq<RedemptionSpend>, last: seq<nat>)
    requires from < upTo < |blocks|
    requires ListsReturns(blocks, from, upTo - 1, address, isCarrier, found, before)
    requires ListsBlock(blocks[upTo], |blocks[upTo]|, upTo, address, isCarrier, more, last)
    ensures ListsReturns(blocks, from, upTo, address, isCarrier, found + more, before + PlacesIn(upTo, last))
  {
    hide IsReportOf, Pays;
    var at := before + PlacesIn(upTo, last);
    forall i | 0 <= i < |at|
      ensures IsReturn(blocks, from, upTo, address, at[i])
           && IsReportOf((found + more)[i], blocks[at[i].height][at[i].index], at[i].height, address, isCarrier)
    {
      if i < |before| {
        assert IsReturn(blocks, from, upTo - 1, address, before[i]);
      } else {
        assert at[i] == Place(upTo, last[i - |before|]);
      }
    }
    forall p | IsReturn(blocks, from, upTo, address, p) ensures p in at {
      if p.height < upTo {
        assert IsReturn(blocks, from, upTo - 1, address, p);
      } else {
        var k :| 0 <= k < |last| && last[k] == p.index;
        assert at[|before| + k] == p;
      }
    }
  }

  method ScanRedemptions(blocks: seq<seq<Tx>>, address: string, fromHeight: nat, toHeight: nat,
                         isCarrier: Input -> bool)
    returns (found: seq<RedemptionSpend>)
    requires fromHeight <= toHeight < |blocks|
    ensures found == Redemptions(blocks, fromHeight, toHeight, address, isCarrier)
    ensures exists at :: ListsReturns(blocks, fromHeight, toHeight, address, isCarrier, found, at)
  {
    hide ListsReturns, PaidTo, FirstTag, SpentCarriers;
    found := [];
    for h := fromHeight to toHeight
      invariant found == Redemptions(blocks, fromHeight, h, address, isCarrier)
    {
      var block := blocks[h + 1];
      ghost var before := found;
      for i := 0 to |block|
        invariant found == before + BlockRedemptions(block, i, h + 1, address, isCarrier)
      {
        var tx := block[i];
        var paidShors, tag := ReadOutputs(tx.outputs, address);
        if paidShors > 0 {
          found := found + [RedemptionSpend(tx.txid, h + 1, SpentCarriers(tx.inputs, isCarrier), tag, paidShors)];
        }
      }
    }
    ghost var at := RedemptionsInOrder(blocks, fromHeight, toHeight, address, isCarrier);
  }

  /** A report is among them exactly if it is the one of a paying transaction in those blocks. */
  lemma RedemptionsExact(blocks: seq<seq<Tx>>, from: nat, upTo: nat, address: string, isCarrier: Input -> bool,
                         r: RedemptionSpend)
    requires from <= upTo < |blocks|
    ensures r in Redemptions(blocks, from, upTo, address, isCarrier) <==>
            exists h, t :: from < h <= upTo && 0 <= t < |blocks[h]| && Pays(blocks[h][t], address)
                           && IsReportOf(r, blocks[h][t], h, address, isCarrier)
  {
    hide IsReportOf, Redemptions, Pays, SpendOf;
    var found := Redemptions(blocks, from, upTo, address, isCarrier);
    var at := RedemptionsInOrder(blocks, from, upTo, address, isCarrier);
    if r in found {
      var i :| 0 <= i < |found| && found[i] == r;
      assert IsReturn(blocks, from, upTo, address, at[i]);
    }
    if h, t :| from < h <= upTo && 0 <= t < |blocks[h]| && Pays(blocks[h][t], address)
               && IsReportOf(r, blocks[h][t], h, address, isCarrier) {
      assert IsReturn(blocks, from, upTo, address, Place(h, t));
      var i :| 0 <= i < |at| && at[i] == Place(h, t);
      SpendIsTheReport(r, blocks[h][t], h, address, isCarrier);
      SpendIsTheReport(found[i], blocks[h][t], h, address, isCarrier);
    }
  }
}
