/** Conservation of the loop in every reachable state: what the gateway pays out is covered by
    records it has redeemed, and what its records stand for by confirmed deposits. */
module Conservation {
  import opened ByteStrings
  import opened Store
  import opened Sums
  import opened Gateway
  import opened MoneyLoop
  import opened StoreOrder
  import opened MintSafety
  import opened ReleaseSafety

  function SatsOf(r: MintRecord): nat {
    r.sats
  }

  function RedeemedOf(r: MintRecord): nat {
    if r.status == Redeeming || r.status == Redeemed then r.sats else 0
  }

  function DepositSats(d: Deposit): nat {
    d.sats
  }

  /** The deposits that may be minted against: confirmed, bound to a deposit intent, and not
      below the minimum. */
  ghost function EligibleDeposits(cfg: Config, db: Db): map<Outpoint, Deposit> {
    map k | k in db.deposits && Backed(cfg, db, k, db.deposits[k].sats) :: db.deposits[k]
  }

  // ---- the books ----

  /** Receipts outstanding and redeemed make up all claimed outpoints, which eligible deposits
      cover. */
  ghost predicate Balanced(cfg: Config, db: Db) {
    && SumBy(db.mints, OutstandingOf) + SumBy(db.mints, RedeemedOf) == SumBy(db.mints, SatsOf)
    && SumBy(db.mints, SatsOf) <= SumBy(EligibleDeposits(cfg, db), DepositSats)
  }

  lemma SoundIsBalanced(cfg: Config, db: Db)
    requires Sound(cfg, db)
    ensures Balanced(cfg, db)
  {
    SumOfParts(db.mints, OutstandingOf, RedeemedOf, SatsOf);
    var n := EligibleDeposits(cfg, db);
    forall k | k in db.mints ensures k in n && SatsOf(db.mints[k]) <= DepositSats(n[k]) {
      assert MintSound(cfg, db, k, db.mints[k]);
    }
    SumCovered(db.mints, SatsOf, n, DepositSats);
  }

  /** In memory and on disk, at every moment of every run. */
  lemma LedgerConserved(ws: seq<World>, ls: seq<Step>, i: nat)
    requires IsRun(ws, ls) && i < |ws|
    ensures Balanced(ws[i].cfg, ws[i].store.db) && Balanced(ws[i].cfg, Disk(ws[i].store))
  {
    hide CandidatesOk, CallsOk, OneLive, StagesOk, Ordered, HeightsBelow, Balanced, Snap, Sound;
    RunInv(ws, ls, i);
    NowSound(ws[i].cfg, ws[i].store, |ws[i].chain.blocks|);
    DiskKeeps(ws[i].cfg, ws[i].store, |ws[i].chain.blocks|);
    SoundIsBalanced(ws[i].cfg, ws[i].store.db);
    SoundIsBalanced(ws[i].cfg, Disk(ws[i].store));
  }

  // ---- the payments ----

  function PaidSats(pays: seq<PayCall>): nat {
    if pays == [] then 0
    else PaidSats(pays[..|pays| - 1]) + (if pays[|pays| - 1].state.Sent? then pays[|pays| - 1].sats else 0)
  }

  predicate PaidIn(pays: seq<PayCall>, k: Outpoint) {
    exists p :: 0 <= p < |pays| && pays[p].state.Sent? && pays[p].key == k
  }

  ghost function PaidRecords(mints: map<Outpoint, MintRecord>, pays: seq<PayCall>): map<Outpoint, MintRecord> {
    map k | k in mints && PaidIn(pays, k) :: mints[k]
  }

  lemma LastIsNew(disk: Db, pays: seq<PayCall>)
    requires Recorded(disk, pays) && pays != [] && pays[|pays| - 1].state.Sent?
    requires forall p, q :: 0 <= p < q < |pays| && pays[p].state.Sent? && pays[q].state.Sent? ==>
        pays[p].key != pays[q].key
    ensures var last := pays[|pays| - 1];
            && !PaidIn(pays[..|pays| - 1], last.key)
            && last.key in disk.mints && disk.mints[last.key].sats == last.sats
  {
    var last := pays[|pays| - 1];
    assert PayOk(disk, last);
  }

  lemma PaidInLast(pays: seq<PayCall>)
    requires pays != []
    ensures forall k :: PaidIn(pays, k) <==>
                          PaidIn(pays[..|pays| - 1], k) || (pays[|pays| - 1].state.Sent? && pays[|pays| - 1].key == k)
  {
    forall k ensures PaidIn(pays, k) <==>
                       PaidIn(pays[..|pays| - 1], k) || (pays[|pays| - 1].state.Sent? && pays[|pays| - 1].key == k)
    {
      if PaidIn(pays[..|pays| - 1], k) {
        var p :| 0 <= p < |pays| - 1 && pays[..|pays| - 1][p].state.Sent? && pays[..|pays| - 1][p].key == k;
        assert pays[p].state.Sent? && pays[p].key == k;
      }
      if PaidIn(pays, k) {
        var p :| 0 <= p < |pays| && pays[p].state.Sent? && pays[p].key == k;
        assert p < |pays| - 1 ==> pays[..|pays| - 1][p] == pays[p];
      }
    }
  }

  /** One more sent payment is of one more record. */
  lemma PaidRecordsStep(mints: map<Outpoint, MintRecord>, pays: seq<PayCall>)
    requires pays != []
    ensures var last, m, m' := pays[|pays| - 1], PaidRecords(mints, pays[..|pays| - 1]), PaidRecords(mints, pays);
            if last.state.Sent? then
              last.key in mints && !PaidIn(pays[..|pays| - 1], last.key) ==>
                last.key in m' && m'[last.key] == mints[last.key] && m' - {last.key} == m
            else m' == m
  {
    hide PaidIn;
    PaidInLast(pays);
  }

  /** Distinct payments of their records' sats add up to the sats of the records paid. */
  lemma {:induction false} PaidIsOfRecords(disk: Db, pays: seq<PayCall>)
    requires Recorded(disk, pays)
    requires forall p, q :: 0 <= p < q < |pays| && pays[p].state.Sent? && pays[q].state.Sent? ==>
        pays[p].key != pays[q].key
    ensures PaidSats(pays) == SumBy(PaidRecords(disk.mints, pays), SatsOf)
  {
    if pays == [] {
      assert PaidRecords(disk.mints, pays) == map[];
    } else {
      var last := pays[|pays| - 1];
      PaidIsOfRecords(disk, pays[..|pays| - 1]);
      PaidRecordsStep(disk.mints, pays);
      if last.state.Sent? {
        LastIsNew(disk, pays);
        SumSplit(PaidRecords(disk.mints, pays), SatsOf, last.key);
      }
    }
  }

  /** Bitcoin paid out never exceeds the redeeming and redeemed records, on disk and in memory,
      nor, through the books, the eligible deposits. */
  lemma PaidIsCovered(ws: seq<World>, ls: seq<Step>, i: nat)
    requires IsGuardedRun(ws, ls) && i < |ws|
    ensures var w := ws[i];
            && PaidSats(w.pays) <= SumBy(Disk(w.store).mints, RedeemedOf)
            && PaidSats(w.pays) <= SumBy(w.store.db.mints, RedeemedOf)
            && PaidSats(w.pays) <= SumBy(EligibleDeposits(w.cfg, Disk(w.store)), DepositSats)
  {
    hide Inv, TimelyInv, Snap, IsGuardedRun, PayOk;
    GuardedRunInv(ws, ls, i);
    RedeemedIsBacked(ws, ls, i);
    var w := ws[i];
    var disk := Disk(w.store);
    forall p, q | 0 <= p < q < |w.pays| && w.pays[p].state.Sent? && w.pays[q].state.Sent?
      ensures w.pays[p].key != w.pays[q].key
    {
      if w.pays[p].key == w.pays[q].key {
        PaidOncePerRecord(ws, ls, i, p, q);
      }
    }
    PaidIsOfRecords(disk, w.pays);
    RecordsPaidAreRedeemed(disk, w.pays);
    MemoryIsAhead(w);
  }

  lemma MemoryIsAhead(w: World)
    requires Inv(w) && TimelyInv(w)
    ensures SumBy(Disk(w.store).mints, RedeemedOf) <= SumBy(w.store.db.mints, RedeemedOf)
  {
    hide CandidatesOk, CallsOk, OneLive, StagesOk, RedeemOrdered, TaskOk, Ordered, HeightsBelow, Sound, Snap;
    DiskBehind(w.store);
    DiskKeeps(w.cfg, w.store, |w.chain.blocks|);
    SumCovered(Disk(w.store).mints, RedeemedOf, w.store.db.mints, RedeemedOf);
  }

  lemma RecordsPaidAreRedeemed(disk: Db, pays: seq<PayCall>)
    requires Recorded(disk, pays)
    ensures SumBy(PaidRecords(disk.mints, pays), SatsOf) <= SumBy(disk.mints, RedeemedOf)
  {
    var m := PaidRecords(disk.mints, pays);
    forall k | k in m ensures k in disk.mints && SatsOf(m[k]) <= RedeemedOf(disk.mints[k]) {
      var p :| 0 <= p < |pays| && pays[p].state.Sent? && pays[p].key == k;
      assert PayOk(disk, pays[p]);
    }
    SumCovered(m, SatsOf, disk.mints, RedeemedOf);
  }

  lemma RedeemedIsBacked(ws: seq<World>, ls: seq<Step>, i: nat)
    requires IsGuardedRun(ws, ls) && i < |ws|
    ensures var disk := Disk(ws[i].store);
            SumBy(disk.mints, RedeemedOf) <= SumBy(EligibleDeposits(ws[i].cfg, disk), DepositSats)
  {
    hide IsRun, Snap;
    LedgerConserved(ws, ls, i);
  }
}
