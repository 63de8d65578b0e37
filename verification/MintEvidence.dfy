/** The books are true, over every run: a receipt recorded as minted, in memory or on disk, is a
    transaction on the chain that carries the outpoint's tag; and bitcoin is only asked for
    against a transaction on the chain that brings such a receipt back, to an address that
    this transaction commits to, if it commits to one. */
module MintEvidence {
  import opened ByteStrings
  import opened Store
  import opened Gateway
  import opened MoneyLoop
  import opened StoreOrder
  import opened MintSafety
  import opened ReleaseSafety
  import Payout
  import Receipt
  import Scan

  ghost predicate SeenOnChain(rec: MintRecord, chain: Scan.Chain) {
    exists tx :: Scan.OnChain(tx, chain) && Some(tx.txid) == rec.mintTxid && Scan.Carries(tx, ScriptOf(rec.tag))
  }

  /** The payout address has the commitment of the return spend, if that carries one. */
  predicate Honours(cfg: Config, tx: Scan.Tx, address: string) {
    var commit := Payout.CommitmentOf(Scan.FirstTag(tx.outputs));
    commit.Some? ==> Receipt.PayoutCommit(cfg.digest, address) == commit.value
  }

  /** `mint` carries the tag, and `tx`, which is in a block, brings its receipt back. */
  ghost predicate ReturnedBy(cfg: Config, chain: Scan.Chain, tag: Receipt.Tag, address: string, mint: Scan.Tx,
                             tx: Scan.Tx)
  {
    && Scan.OnChain(mint, chain) && Scan.Carries(mint, ScriptOf(tag))
    && Scan.MinedSince(tx, chain, 0) && Returns(cfg, mint.txid, tx) && Honours(cfg, tx, address)
  }

  ghost predicate CameBack(cfg: Config, chain: Scan.Chain, tag: Receipt.Tag, address: string) {
    exists mint, tx :: ReturnedBy(cfg, chain, tag, address, mint, tx)
  }

  /** What a record claims to have happened did. */
  ghost predicate RecordTrue(cfg: Config, intents: map<IntentId, Intent>, rec: MintRecord, chain: Scan.Chain) {
    && (rec.status != Minting ==> SeenOnChain(rec, chain))
    && (rec.redeemIntentId.Some? ==>
          && rec.status != Minting && rec.redeemIntentId.value in intents
          && var address := intents[rec.redeemIntentId.value].btcAddress;
             address.Some? ==> CameBack(cfg, chain, rec.tag, address.value))
  }

  ghost predicate Evidence(cfg: Config, db: Db, chain: Scan.Chain) {
    forall k :: k in db.mints ==> RecordTrue(cfg, db.intents, db.mints[k], chain)
  }

  ghost predicate AllEvidence(cfg: Config, s: StoreState, chain: Scan.Chain) {
    forall i :: 0 <= i <= |s.log| + 1 ==> Evidence(cfg, Snap(s, i), chain)
  }

  /** The release task works on a minted receipt, which has come back for its target. */
  ghost predicate TaskTrue(w: World) {
    && (w.release.Checking? || w.release.Paying? ==>
          w.release.key in w.store.db.mints && w.store.db.mints[w.release.key].status != Minting)
    && (w.release.Checking? ==>
          CameBack(w.cfg, w.chain, w.store.db.mints[w.release.key].tag, w.release.target.address))
  }

  ghost predicate PaysTrue(w: World) {
    forall p :: 0 <= p < |w.pays| ==>
                  CameBack(w.cfg, w.chain, TagFor(Job(MintLeg, w.pays[p].key), w.pays[p].sats), w.pays[p].address)
  }

  // ---- the chain moving on ----

  lemma StaysOnChain(tx: Scan.Tx, c: Scan.Chain, c': Scan.Chain)
    requires Scan.OnChain(tx, c) && Scan.Extends(c, c')
    ensures Scan.OnChain(tx, c')
  {
    if tx in c.mempool {
      if tx !in c'.mempool {
        var h :| |c.blocks| <= h < |c'.blocks| && tx in c'.blocks[h];
        assert Scan.MinedSince(tx, c', 0);
      }
    } else {
      Scan.StaysMined(tx, c, c', 0);
    }
  }

  lemma CameBackStays(cfg: Config, c: Scan.Chain, c': Scan.Chain, tag: Receipt.Tag, address: string)
    requires CameBack(cfg, c, tag, address) && Scan.Extends(c, c')
    ensures CameBack(cfg, c', tag, address)
  {
    hide Scan.OnChain, Scan.Carries, Scan.MinedSince, Scan.Extends, Returns, Honours;
    var mint, tx :| ReturnedBy(cfg, c, tag, address, mint, tx);
    StaysOnChain(mint, c, c');
    Scan.StaysMined(tx, c, c', 0);
    assert ReturnedBy(cfg, c', tag, address, mint, tx);
  }

  lemma EvidenceStays(cfg: Config, db: Db, c: Scan.Chain, c': Scan.Chain)
    requires Evidence(cfg, db, c) && Scan.Extends(c, c')
    ensures Evidence(cfg, db, c')
  {
    hide CameBack, Scan.OnChain, Scan.Extends, Scan.Carries;
    forall k | k in db.mints ensures RecordTrue(cfg, db.intents, db.mints[k], c') {
      var rec := db.mints[k];
      assert RecordTrue(cfg, db.intents, rec, c);
      if rec.status != Minting {
        var tx :| Scan.OnChain(tx, c) && Some(tx.txid) == rec.mintTxid && Scan.Carries(tx, ScriptOf(rec.tag));
        StaysOnChain(tx, c, c');
      }
      if rec.redeemIntentId.Some? && db.intents[rec.redeemIntentId.value].btcAddress.Some? {
        CameBackStays(cfg, c, c', rec.tag, db.intents[rec.redeemIntentId.value].btcAddress.value);
      }
    }
  }

  // ---- one record ----

  /** It says the same of the chain. */
  lemma SameStory(cfg: Config, intents: map<IntentId, Intent>, a: MintRecord, b: MintRecord, chain: Scan.Chain)
    requires RecordTrue(cfg, intents, a, chain)
    requires b.tag == a.tag && b.mintTxid == a.mintTxid && b.redeemIntentId == a.redeemIntentId
    requires b.status == Minting <==> a.status == Minting
    ensures RecordTrue(cfg, intents, b, chain)
  {
    hide CameBack;
  }

  /** One record changes to a true one, and intents are kept. */
  lemma AfterEvidence(cfg: Config, a: Db, b: Db, written: Option<Written>, chain: Scan.Chain)
    requires Evidence(cfg, a, chain) && b.mints == After(a.mints, written)
    requires forall id :: id in a.intents ==> id in b.intents && IntentKept(a.intents[id], b.intents[id])
    requires written.Some? ==> RecordTrue(cfg, a.intents, written.value.rec, chain)
    ensures Evidence(cfg, b, chain)
  {
    hide SeenOnChain, CameBack;
    forall k | k in b.mints ensures RecordTrue(cfg, b.intents, b.mints[k], chain) {
      assert k in a.mints ==> RecordTrue(cfg, a.intents, a.mints[k], chain);
    }
  }

  lemma TrueNow(cfg: Config, db: Db, key: Outpoint, chain: Scan.Chain)
    requires Evidence(cfg, db, chain) && key in db.mints
    ensures RecordTrue(cfg, db.intents, db.mints[key], chain)
  {
  }

  // ---- minting ----

  lemma FinalizedIsTrue(cfg: Config, intents: map<IntentId, Intent>, rec: MintRecord, tx: Scan.Tx, chain: Scan.Chain)
    requires RecordTrue(cfg, intents, rec, chain)
    requires Scan.OnChain(tx, chain) && Scan.Carries(tx, ScriptOf(rec.tag))
    ensures RecordTrue(cfg, intents, rec.(status := Minted, mintTxid := Some(tx.txid)), chain)
  {
    hide ScriptOf, CameBack, Scan.OnChain, Scan.Carries;
    assert Scan.OnChain(tx, chain) && Scan.Carries(tx, ScriptOf(rec.tag));
  }

  lemma ScanIsTrue(w: World, l: Step)
    requires Enabled(w, l) && l.EndScan? && Writes(w, l).Some? && Evidence(w.cfg, w.store.db, w.chain)
    ensures RecordTrue(w.cfg, w.store.db.intents, Writes(w, l).value.rec, w.chain)
  {
    hide ScriptOf, NamesNoOther, RecordTrue, Scan.OnChain, Scan.Carries;
    var rec := w.store.db.mints[l.job.key];
    if l.result.Found? {
      FinalizedIsTrue(w.cfg, w.store.db.intents, rec, l.result.tx, w.chain);
    } else {
      SameStory(w.cfg, w.store.db.intents, rec, Writes(w, l).value.rec, w.chain);
    }
  }

  lemma ReplyIsTrue(w: World, l: Step)
    requires Inv(w) && Enabled(w, l) && l.SignerReplies? && Writes(w, l).Some?
    requires Evidence(w.cfg, w.store.db, w.chain)
    ensures RecordTrue(w.cfg, w.store.db.intents, Writes(w, l).value.rec, w.chain)
  {
    hide StoreInv, CandidatesOk, OneLive, CallOk, ScriptOf, Scan.Carries, Scan.OnChain, RecordTrue;
    var i := w.attempts[l.job].call;
    assert StageOk(w.cfg, w.store, w.chain, w.calls, l.job, w.attempts[l.job]);
    CallCarries(w, i);
    CallIsOnChain(w, i);
    FinalizedIsTrue(w.cfg, w.store.db.intents, w.store.db.mints[l.job.key], w.calls[i].state.tx, w.chain);
  }

  lemma ClaimIsTrue(w: World, l: Step)
    requires Inv(w) && Enabled(w, l) && l.ClaimKey? && Writes(w, l).Some?
    ensures RecordTrue(w.cfg, w.store.db.intents, Writes(w, l).value.rec, w.chain)
  {
    hide StoreInv, CallsOk, OneLive, StagesOk, MintSound, ConvertSound, SeenOnChain, CameBack;
    assert CandidateOk(w.cfg, w.store.db, l.candidate, |w.chain.blocks|);
  }

  lemma CallIsOnChain(w: World, i: nat)
    requires Inv(w) && i < |w.calls| && w.calls[i].state.Broadcast?
    ensures Scan.OnChain(w.calls[i].state.tx, w.chain)
  {
    hide StoreInv, CandidatesOk, OneLive, StagesOk;
    assert CallOk(w.cfg, Disk(w.store), w.chain, w.calls[i]);
  }

  // ---- binding and releasing ----

  /** The return spend that a binding reads is its evidence. */
  lemma BoundCameBack(w: World, key: Outpoint, height: nat, tx: Scan.Tx, intents: seq<Payout.Listed>)
    requires MayBind(w, key, height, tx, intents)
    requires RecordTrue(w.cfg, w.store.db.intents, w.store.db.mints[key], w.chain)
    ensures var chosen := ChoiceFor(w.cfg, w.store.db.mints[key].ssqAddress, tx, intents).value;
            && chosen.id in w.store.db.intents
            && var address := w.store.db.intents[chosen.id].btcAddress;
               address.Some? ==> CameBack(w.cfg, w.chain, w.store.db.mints[key].tag, address.value)
  {
    hide Payout.Choose, Scan.FirstTag, Returns, Scan.Carries, ScriptOf, Payout.IsListing, CameBack;
    var rec := w.store.db.mints[key];
    var chosen := ChoiceFor(w.cfg, rec.ssqAddress, tx, intents).value;
    Payout.ChosenMayBind(w.cfg.digest, w.store.db, intents, key, Scan.FirstTag(tx.outputs));
    if chosen.intent.btcAddress.Some? {
      var mint :| Scan.OnChain(mint, w.chain) && Some(mint.txid) == rec.mintTxid
                  && Scan.Carries(mint, ScriptOf(rec.tag));
      assert Scan.MinedSince(tx, w.chain, 0);
      ItCameBack(w.cfg, w.chain, rec.tag, chosen.intent.btcAddress.value, mint, tx);
    }
  }

  lemma ItCameBack(cfg: Config, chain: Scan.Chain, tag: Receipt.Tag, address: string, mint: Scan.Tx, tx: Scan.Tx)
    requires ReturnedBy(cfg, chain, tag, address, mint, tx)
    ensures CameBack(cfg, chain, tag, address)
  {
  }

  lemma BindIsTrue(w: World, l: Step)
    requires Enabled(w, l) && l.ReceiptReturned? && Evidence(w.cfg, w.store.db, w.chain)
    ensures RecordTrue(w.cfg, w.store.db.intents, Writes(w, l).value.rec, w.chain)
  {
    hide ChoiceFor, CameBack, Returns, Payout.IsListing;
    var rec := w.store.db.mints[l.key];
    assert RecordTrue(w.cfg, w.store.db.intents, rec, w.chain);
    BoundCameBack(w, l.key, l.height, l.tx, l.intents);
  }

  lemma RedeemIsTrue(w: World, l: Step)
    requires Enabled(w, l) && (l.HistoryArrives? || l.ReleaseReplies?) && Writes(w, l).Some?
    requires TaskTrue(w) && Evidence(w.cfg, w.store.db, w.chain)
    ensures RecordTrue(w.cfg, w.store.db.intents, Writes(w, l).value.rec, w.chain)
  {
    hide Already, RecordTrue, CameBack;
    SameStory(w.cfg, w.store.db.intents, w.store.db.mints[w.release.key], Writes(w, l).value.rec, w.chain);
  }

  // ---- every step ----

  lemma WrittenIsTrue(w: World, l: Step)
    requires Inv(w) && TaskTrue(w) && Enabled(w, l) && Evidence(w.cfg, w.store.db, w.chain) && Writes(w, l).Some?
    ensures RecordTrue(w.cfg, w.store.db.intents, Writes(w, l).value.rec, w.chain) && WritesMint(l)
  {
    WritesByKind(w, l);
    hide Inv, TaskTrue, Enabled, Evidence, Writes, RecordTrue;
    match l
    case EndScan(_, _) => ScanIsTrue(w, l);
    case SignerReplies(_) => ReplyIsTrue(w, l);
    case ClaimKey(_) => ClaimIsTrue(w, l);
    case ReceiptReturned(_, _, _, _) => BindIsTrue(w, l);
    case _ => RedeemIsTrue(w, l);
  }

  lemma WritesByKind(w: World, l: Step)
    requires Enabled(w, l)
    ensures Writes(w, l).Some? ==> WritesMint(l)
  {
    hide Enabled, ScanWritten, Already, ChoiceFor;
  }

  lemma ChainOnlyGrows(w: World, l: Step)
    requires Enabled(w, l) && Assumed(w, l)
    ensures Scan.Extends(w.chain, Next(w, l).chain) && Next(w, l).cfg == w.cfg
    ensures !MovesChain(l) ==> Next(w, l).chain == w.chain
  {
    Frame(w, l);
    if l.SignerBroadcasts? {
      hide BuiltFor;
    } else {
      Scan.ExtendsReflexive(w.chain);
      hide Next, Enabled, Scan.Extends;
      if l.ChainMoves? {
        ChainMovesTo(w, l);
      }
    }
  }

  lemma ChainMovesTo(w: World, l: Step)
    requires Enabled(w, l) && l.ChainMoves?
    ensures Next(w, l).chain == l.next
  {
  }

  lemma MemoryEvidence(w: World, l: Step)
    requires Inv(w) && TaskTrue(w) && Enabled(w, l) && Assumed(w, l) && !TouchesDisk(l)
    requires Evidence(w.cfg, w.store.db, w.chain)
    ensures Evidence(w.cfg, Next(w, l).store.db, Next(w, l).chain)
  {
    hide Inv, TaskTrue, Evidence, Enabled, Assumed, Next, Scan.Extends, Writes, RecordTrue;
    ChainOnlyGrows(w, l);
    EvidenceStays(w.cfg, w.store.db, w.chain, Next(w, l).chain);
    forall id | id in w.store.db.intents
      ensures id in Next(w, l).store.db.intents
          && IntentKept(w.store.db.intents[id], Next(w, l).store.db.intents[id])
    {
      IntentStays(w, l, id);
    }
    WritesMints(w, l);
    if Writes(w, l).Some? {
      WrittenIsTrue(w, l);
    }
    AfterEvidence(w.cfg, w.store.db, Next(w, l).store.db, Writes(w, l), Next(w, l).chain);
  }

  lemma AllEvidenceStep(w: World, l: Step)
    requires Inv(w) && TaskTrue(w) && AllEvidence(w.cfg, w.store, w.chain) && Enabled(w, l) && Assumed(w, l)
    ensures AllEvidence(w.cfg, Next(w, l).store, Next(w, l).chain)
  {
    hide Inv, TaskTrue, Evidence, Enabled, Assumed, Next, Scan.Extends;
    var w' := Next(w, l);
    ChainOnlyGrows(w, l);
    forall i | 0 <= i <= |w.store.log| + 1 ensures Evidence(w.cfg, Snap(w.store, i), w'.chain) {
      EvidenceStays(w.cfg, Snap(w.store, i), w.chain, w'.chain);
    }
    assert Snap(w.store, |w.store.log| + 1) == w.store.db;
    if !TouchesDisk(l) {
      MemoryEvidence(w, l);
    }
    forall m | 0 <= m <= |w'.store.log| + 1 ensures Evidence(w.cfg, Snap(w'.store, m), w'.chain) {
      SnapshotsOfNext(w, l, m);
      if TouchesDisk(l) {
        SnapshotsOnDisk(w, l, m);
      }
    }
  }

  // ---- the release task and its payments ----

  predicate NotBackToMinting(a: Db, b: Db) {
    forall k :: k in a.mints && a.mints[k].status != Minting ==>
                  k in b.mints && b.mints[k].status != Minting && b.mints[k].tag == a.mints[k].tag
  }

  /** What is written into a minted record leaves it minted. */
  lemma WrittenForward(w: World, l: Step)
    requires Enabled(w, l) && Writes(w, l).Some? && Writes(w, l).value.key in w.store.db.mints
    ensures var was, now := w.store.db.mints[Writes(w, l).value.key], Writes(w, l).value.rec;
            was.status != Minting ==> now.status != Minting && now.tag == was.tag
  {
    hide Scan.ScanContract, NamesNoOther, ScriptOf, ChoiceFor, Payout.IsListing, Returns, Already;
  }

  lemma StaysMintedStep(w: World, l: Step)
    requires Enabled(w, l) && !l.CrashAndReload?
    ensures NotBackToMinting(w.store.db, Next(w, l).store.db)
  {
    hide Enabled, Next, Writes;
    WritesMints(w, l);
    if Writes(w, l).Some? && Writes(w, l).value.key in w.store.db.mints {
      WrittenForward(w, l);
    }
  }

  /** The release task only moves on to a payment from a checked target, and to a target from a
      bound record. */
  lemma TaskEnters(w: World, l: Step)
    requires TaskTrue(w) && Enabled(w, l) && MovesRelease(l) && Evidence(w.cfg, w.store.db, w.chain)
    ensures TaskTrue(Next(w, l))
  {
    hide Enabled, Next, TaskTrue, Evidence;
    if l.BeginRelease? {
      TaskEntersChecking(w, l);
    } else if l.HistoryArrives? {
      TaskEntersPaying(w, l);
    } else {
      TaskLeaves(w, l);
    }
  }

  lemma TaskEntersChecking(w: World, l: Step)
    requires Enabled(w, l) && l.BeginRelease? && Evidence(w.cfg, w.store.db, w.chain)
    ensures TaskTrue(Next(w, l))
  {
    hide CameBack, SeenOnChain;
    TrueNow(w.cfg, w.store.db, l.key, w.chain);
  }

  lemma TaskEntersPaying(w: World, l: Step)
    requires TaskTrue(w) && Enabled(w, l) && l.HistoryArrives?
    ensures TaskTrue(Next(w, l))
  {
    hide Already, RedeemedStore, CameBack;
  }

  lemma TaskLeaves(w: World, l: Step)
    requires Enabled(w, l) && MovesRelease(l) && !l.BeginRelease? && !l.HistoryArrives?
    ensures TaskTrue(Next(w, l))
  {
    hide Comment, Already, SeenOnChain, RedeemedStore, IntentStore, BoundStore, MayBind, ChoiceFor;
    hide NoteStore, Loaded, Disk, CameBack, SentStore, ClaimOf, NewCandidate, ScriptOf, Recovers;
  }

  lemma TaskTrueStep(w: World, l: Step)
    requires TaskTrue(w) && Enabled(w, l) && Assumed(w, l) && Evidence(w.cfg, w.store.db, w.chain)
    ensures TaskTrue(Next(w, l))
  {
    hide Enabled, Next, Assumed, CameBack, Evidence, Scan.Extends;
    if MovesRelease(l) {
      TaskEnters(w, l);
    } else {
      Frame(w, l);
      StaysMintedStep(w, l);
      ChainOnlyGrows(w, l);
      if w.release.Checking? {
        CameBackStays(w.cfg, w.chain, Next(w, l).chain, w.store.db.mints[w.release.key].tag, w.release.target.address);
      }
    }
  }

  lemma NewPayTrue(w: World, l: Step)
    requires Inv(w) && TaskTrue(w) && PaysTrue(w) && Enabled(w, l) && Asks(w, l)
    ensures PaysTrue(Next(w, l))
  {
    hide CandidatesOk, CallsOk, OneLive, StagesOk, CameBack, Asks, StoreInv, TagFor, Enabled, Next;
    AskedPay(w, l);
    NowSound(w.cfg, w.store, |w.chain.blocks|);
    assert MintSound(w.cfg, w.store.db, w.release.key, w.store.db.mints[w.release.key]);
  }

  lemma PaysTrueStep(w: World, l: Step)
    requires Inv(w) && TaskTrue(w) && PaysTrue(w) && Enabled(w, l) && Assumed(w, l)
    ensures PaysTrue(Next(w, l))
  {
    hide Inv, TaskTrue, CameBack, Asks, Assumed, Enabled, Next, Scan.Extends, TagFor;
    var w' := Next(w, l);
    if Asks(w, l) {
      NewPayTrue(w, l);
    } else {
      ChainOnlyGrows(w, l);
      SamePays(w, l);
      forall p | 0 <= p < |w'.pays|
        ensures CameBack(w.cfg, w'.chain, TagFor(Job(MintLeg, w'.pays[p].key), w'.pays[p].sats), w'.pays[p].address)
      {
        PaymentsStay(w, l, p);
        CameBackStays(w.cfg, w.chain, w'.chain, TagFor(Job(MintLeg, w.pays[p].key), w.pays[p].sats), w.pays[p].address);
      }
    }
  }

  lemma SamePays(w: World, l: Step)
    requires Enabled(w, l) && !Asks(w, l)
    ensures |Next(w, l).pays| == |w.pays|
  {
    if !l.WalletSends? && !l.WalletRefuses? {
      hide Enabled, Next, Asks;
      PaysFrame(w, l);
    }
  }

  lemma {:induction false} RunEvidence(ws: seq<World>, ls: seq<Step>, i: nat)
    requires IsRun(ws, ls) && i < |ws|
    ensures AllEvidence(ws[i].cfg, ws[i].store, ws[i].chain) && TaskTrue(ws[i]) && PaysTrue(ws[i])
  {
    hide Inv, Evidence, Enabled, Assumed, Next, TaskTrue, PaysTrue;
    if i == 0 {
      EmptyEvidence(ws[0]);
    } else {
      RunEvidence(ws, ls, i - 1);
      RunInv(ws, ls, i - 1);
      var w, l := ws[i - 1], ls[i - 1];
      assert ws[i] == Next(w, l);
      assert Snap(w.store, |w.store.log| + 1) == w.store.db;
      ChainOnlyGrows(w, l);
      AllEvidenceStep(w, l);
      TaskTrueStep(w, l);
      PaysTrueStep(w, l);
    }
  }

  lemma EmptyEvidence(w: World)
    requires Initial(w)
    ensures AllEvidence(w.cfg, w.store, w.chain) && TaskTrue(w) && PaysTrue(w)
  {
  }

  // ---- the theorems ----

  /** A receipt recorded as minted, redeeming or redeemed is on the chain under its own tag,
      and the disk never says otherwise. */
  lemma MintedIsOnChain(ws: seq<World>, ls: seq<Step>, i: nat, key: Outpoint)
    requires IsRun(ws, ls) && i < |ws|
    ensures key in ws[i].store.db.mints && ws[i].store.db.mints[key].status != Minting ==>
              SeenOnChain(ws[i].store.db.mints[key], ws[i].chain)
    ensures key in Disk(ws[i].store).mints && Disk(ws[i].store).mints[key].status != Minting ==>
              SeenOnChain(Disk(ws[i].store).mints[key], ws[i].chain)
  {
    hide IsRun, SeenOnChain, CameBack;
    RunEvidence(ws, ls, i);
    RunInv(ws, ls, i);
    var s := ws[i].store;
    assert Evidence(ws[i].cfg, Snap(s, |s.log| + 1), ws[i].chain);
    assert Evidence(ws[i].cfg, Snap(s, s.written), ws[i].chain);
  }

  /** Bitcoin is only asked for when the record's own carrier, output 0 of a transaction with
      the record's tag, has been spent in a block by a transaction that pays the redemption
      address; and the address paid has that transaction's commitment, if it carries one. */
  lemma PaidAgainstReturn(ws: seq<World>, ls: seq<Step>, i: nat, p: nat)
    requires IsRun(ws, ls) && i < |ws| && p < |ws[i].pays|
    ensures var pay := ws[i].pays[p];
            CameBack(ws[i].cfg, ws[i].chain, TagFor(Job(MintLeg, pay.key), pay.sats), pay.address)
  {
    hide IsRun, CameBack, AllEvidence, TaskTrue;
    RunEvidence(ws, ls, i);
  }
}
