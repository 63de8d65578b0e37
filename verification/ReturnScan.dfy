/** The two views of a returned receipt: the transaction that spends it, which the money loop looks
    at, and the reports of the block scan, which is all that the gateway sees of it. */
module ReturnScan {
  import opened ByteStrings
  import opened Store
  import opened Gateway
  import opened MoneyLoop
  import Payout
  import Scan

  /** findMintByCarrier finds a record. */
  predicate IsCarrier(db: Db, x: Scan.Input) {
    x.Spend? && x.vout == 0 && exists k :: k in db.mints && db.mints[k].mintTxid == Some(x.txid)
  }

  function CarriersOf(db: Db): Scan.Input -> bool {
    (x: Scan.Input) => IsCarrier(db, x)
  }

  /** The reports that scanForRedemptions works on. */
  function Reports(cfg: Config, db: Db, blocks: seq<seq<Scan.Tx>>, from: nat, upTo: nat): seq<Scan.RedemptionSpend>
    requires from <= upTo < |blocks|
  {
    Scan.Redemptions(blocks, from, upTo, cfg.redemptionAddress, CarriersOf(db))
  }

  /** A block of that height has a transaction of that id which returns the receipt. */
  ghost predicate ReturnMined(cfg: Config, mintTxid: string, blocks: seq<seq<Scan.Tx>>, height: nat, tx: Scan.Tx) {
    height < |blocks| && tx in blocks[height] && Returns(cfg, mintTxid, tx)
  }

  /** The report is about that transaction: its id, its height, its tag and the receipt. */
  ghost predicate Tells(r: Scan.RedemptionSpend, mintTxid: string, height: nat, tx: Scan.Tx) {
    && r.txid == tx.txid && r.height == height && Scan.IsFirstTag(tx.outputs, r.tag)
    && Scan.Spend(mintTxid, 0) in r.spentCarriers
  }

  lemma PaysMeansPaid(cfg: Config, mintTxid: string, tx: Scan.Tx)
    ensures Returns(cfg, mintTxid, tx) <==>
            Scan.Spend(mintTxid, 0) in tx.inputs && Scan.Pays(tx, cfg.redemptionAddress)
  {
    Scan.PaysIsPaid(tx, cfg.redemptionAddress);
  }

  lemma PickedIsCarrier(r: Scan.RedemptionSpend, tx: Scan.Tx, height: nat, address: string, db: Db, x: Scan.Input)
    requires Scan.IsReportOf(r, tx, height, address, CarriersOf(db))
    ensures x in r.spentCarriers <==> x in tx.inputs && IsCarrier(db, x)
  {
    hide IsCarrier, Scan.IsFirstTag, Scan.PicksCarriers, Scan.PayingOutputs;
    var at :| Scan.PicksCarriers(tx.inputs, CarriersOf(db), r.spentCarriers, at);
    Scan.PickedAreCarriers(tx.inputs, CarriersOf(db), r.spentCarriers, at, x);
    CarriersSpend(db, x);
  }

  lemma CarriersSpend(db: Db, x: Scan.Input)
    ensures IsCarrier(db, x) ==> x.Spend?
  {
  }

  /** Every return of a recorded mint in the scanned blocks is reported, with the receipt among
      the carriers spent. */
  lemma ReturnsAreReported(cfg: Config, db: Db, blocks: seq<seq<Scan.Tx>>, from: nat, upTo: nat, key: Outpoint,
                           height: nat, tx: Scan.Tx) returns (r: Scan.RedemptionSpend)
    requires from <= upTo < |blocks| && from < height <= upTo
    requires key in db.mints && db.mints[key].mintTxid.Some?
    requires ReturnMined(cfg, db.mints[key].mintTxid.value, blocks, height, tx)
    ensures r in Reports(cfg, db, blocks, from, upTo) && Tells(r, db.mints[key].mintTxid.value, height, tx)
  {
    hide Scan.Redemptions, Scan.IsFirstTag, Scan.SpendOf, Scan.Pays, Returns, Scan.PicksCarriers;
    var mintTxid := db.mints[key].mintTxid.value;
    var t :| 0 <= t < |blocks[height]| && blocks[height][t] == tx;
    r := Scan.SpendOf(tx, height, cfg.redemptionAddress, CarriersOf(db));
    PaysMeansPaid(cfg, mintTxid, tx);
    Scan.SpendIsTheReport(r, tx, height, cfg.redemptionAddress, CarriersOf(db));
    Scan.RedemptionsExact(blocks, from, upTo, cfg.redemptionAddress, CarriersOf(db), r);
    PickedIsCarrier(r, tx, height, cfg.redemptionAddress, db, Scan.Spend(mintTxid, 0));
  }

  /** And every carrier of a report is a recorded mint's receipt, which that transaction returns. */
  lemma ReportedIsReturned(cfg: Config, db: Db, blocks: seq<seq<Scan.Tx>>, from: nat, upTo: nat,
                           r: Scan.RedemptionSpend, x: Scan.Input) returns (key: Outpoint, tx: Scan.Tx)
    requires from <= upTo < |blocks|
    requires r in Reports(cfg, db, blocks, from, upTo) && x in r.spentCarriers
    ensures key in db.mints && db.mints[key].mintTxid.Some? && x == Scan.Spend(db.mints[key].mintTxid.value, 0)
    ensures from < r.height <= upTo && ReturnMined(cfg, db.mints[key].mintTxid.value, blocks, r.height, tx)
    ensures Tells(r, db.mints[key].mintTxid.value, r.height, tx)
  {
    hide Scan.Redemptions, Scan.IsFirstTag, Scan.Pays, Returns, Scan.PicksCarriers;
    Scan.RedemptionsExact(blocks, from, upTo, cfg.redemptionAddress, CarriersOf(db), r);
    var h, t :| from < h <= upTo && 0 <= t < |blocks[h]| && Scan.Pays(blocks[h][t], cfg.redemptionAddress)
                && Scan.IsReportOf(r, blocks[h][t], h, cfg.redemptionAddress, CarriersOf(db));
    tx := blocks[h][t];
    PickedIsCarrier(r, tx, h, cfg.redemptionAddress, db, x);
    key :| key in db.mints && db.mints[key].mintTxid == Some(x.txid);
    PaysMeansPaid(cfg, x.txid, tx);
  }

  /** What the scan reports of a transaction in one of its blocks. */
  lemma ReportOf(cfg: Config, db: Db, blocks: seq<seq<Scan.Tx>>, from: nat, upTo: nat, key: Outpoint, height: nat,
                 tx: Scan.Tx)
    requires from < height <= upTo < |blocks| && tx in blocks[height]
    requires key in db.mints && db.mints[key].mintTxid.Some?
    ensures var r := Scan.SpendOf(tx, height, cfg.redemptionAddress, CarriersOf(db));
            && r.tag == Scan.FirstTag(tx.outputs)
            && (&& r in Reports(cfg, db, blocks, from, upTo)
                && Scan.Spend(db.mints[key].mintTxid.value, 0) in r.spentCarriers
                <==> Returns(cfg, db.mints[key].mintTxid.value, tx))
  {
    var r := Scan.SpendOf(tx, height, cfg.redemptionAddress, CarriersOf(db));
    hide Scan.Redemptions, Scan.IsFirstTag, Scan.Pays, Returns, Scan.PicksCarriers, Scan.IsReportOf;
    var mintTxid := db.mints[key].mintTxid.value;
    Scan.SpendIsTheReport(r, tx, height, cfg.redemptionAddress, CarriersOf(db));
    PickedIsCarrier(r, tx, height, cfg.redemptionAddress, db, Scan.Spend(mintTxid, 0));
    PaysMeansPaid(cfg, mintTxid, tx);
    if Returns(cfg, mintTxid, tx) {
      var r' := ReturnsAreReported(cfg, db, blocks, from, upTo, key, height, tx);
    }
    ReportedPays(cfg, db, blocks, from, upTo, height, tx);
  }

  lemma ReportedPays(cfg: Config, db: Db, blocks: seq<seq<Scan.Tx>>, from: nat, upTo: nat, height: nat, tx: Scan.Tx)
    requires from < height <= upTo < |blocks| && tx in blocks[height]
    ensures var r := Scan.SpendOf(tx, height, cfg.redemptionAddress, CarriersOf(db));
            r in Reports(cfg, db, blocks, from, upTo) <==> Scan.Pays(tx, cfg.redemptionAddress)
  {
    var address, isCarrier := cfg.redemptionAddress, CarriersOf(db);
    var r := Scan.SpendOf(tx, height, address, isCarrier);
    hide Scan.Redemptions, Scan.Pays, Scan.IsReportOf, Scan.PaidTo, Scan.FirstTag, Scan.SpentCarriers;
    Scan.RedemptionsExact(blocks, from, upTo, address, isCarrier, r);
    Scan.SpendIsTheReport(r, tx, height, address, isCarrier);
    Scan.PaysIsPaid(tx, address);
    var t :| 0 <= t < |blocks[height]| && blocks[height][t] == tx;
    if r in Reports(cfg, db, blocks, from, upTo) {
      var h', t' :| from < h' <= upTo && 0 <= t' < |blocks[h']| && Scan.Pays(blocks[h'][t'], address)
                    && Scan.IsReportOf(r, blocks[h'][t'], h', address, isCarrier);
      Scan.SpendIsTheReport(r, blocks[h'][t'], h', address, isCarrier);
      Scan.PaysIsPaid(blocks[h'][t'], address);
    }
  }

  /** In every world: a scan that reaches the block reports the transaction as the return of the
      receipt, with a tag that an intent is chosen by, exactly if a minted record may be bound. */
  lemma BindsWhatIsReported(w: World, key: Outpoint, from: nat, upTo: nat, height: nat, tx: Scan.Tx,
                            intents: seq<Payout.Listed>)
    requires from < height <= upTo < |w.chain.blocks| && tx in w.chain.blocks[height]
    requires Payout.IsListing(w.store.db, intents)
    requires key in w.store.db.mints && w.store.db.mints[key].mintTxid.Some? && w.store.db.mints[key].status == Minted
    ensures var rec := w.store.db.mints[key];
            MayBind(w, key, height, tx, intents) <==>
            exists r :: r in Reports(w.cfg, w.store.db, w.chain.blocks, from, upTo)
                        && Scan.IsReportOf(r, tx, height, w.cfg.redemptionAddress, CarriersOf(w.store.db))
                        && Scan.Spend(rec.mintTxid.value, 0) in r.spentCarriers
                        && Payout.Choose(w.cfg.digest, intents, rec.ssqAddress, r.tag).Some?
  {
    hide Reports, Scan.IsReportOf, Scan.SpendOf, Returns, Payout.Choose, Payout.IsListing, Scan.FirstTag;
    var address, isCarrier := w.cfg.redemptionAddress, CarriersOf(w.store.db);
    var own := Scan.SpendOf(tx, height, address, isCarrier);
    ReportOf(w.cfg, w.store.db, w.chain.blocks, from, upTo, key, height, tx);
    Scan.SpendIsTheReport(own, tx, height, address, isCarrier);
    forall r | Scan.IsReportOf(r, tx, height, address, isCarrier) ensures r == own {
      Scan.SpendIsTheReport(r, tx, height, address, isCarrier);
    }
  }
}
