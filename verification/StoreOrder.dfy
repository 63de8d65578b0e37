/** What the gateway's steps do to its store: every snapshot keeps what earlier ones promised,
    and every record is backed by a deposit. */
module StoreOrder {
  import opened ByteStrings
  import opened Store
  import opened Gateway
  import opened MoneyLoop
  import Payout
  import Receipt
  import Scan

  // ---- what later snapshots keep of earlier ones ----

  ghost predicate Keeps(cfg: Config, a: Db, b: Db) {
    && (forall j: Job :: ClaimOf(cfg, a, j).Some? ==> ClaimOf(cfg, b, j) == ClaimOf(cfg, a, j))
    && (forall k :: k in a.mints ==> k in b.mints && MintKept(a.mints[k], b.mints[k]))
    && (forall k :: k in a.deposits ==> k in b.deposits && DepositKept(a.deposits[k], b.deposits[k]))
    && (forall id :: id in a.intents ==> id in b.intents && IntentKept(a.intents[id], b.intents[id]))
  }

  predicate MintKept(a: MintRecord, b: MintRecord) {
    a.sats == b.sats && (a.status != Minting ==> b.status != Minting)
  }

  predicate DepositKept(a: Deposit, b: Deposit) {
    a.sats == b.sats && a.address == b.address && a.intentId == b.intentId && Rank(a.confidence) <= Rank(b.confidence)
  }

  predicate IntentKept(a: Intent, b: Intent) {
    && a.kind == b.kind && a.ssqAddress == b.ssqAddress && a.btcAddress == b.btcAddress
    && a.createdAt == b.createdAt
  }

  ghost predicate Ordered(cfg: Config, s: StoreState) {
    forall i, j :: 0 <= i <= j <= |s.log| + 1 ==> Keeps(cfg, Snap(s, i), Snap(s, j))
  }

  // ---- what every snapshot satisfies ----

  /** A deposit that may be minted against. */
  predicate Backed(cfg: Config, db: Db, key: Outpoint, sats: nat) {
    && key in db.deposits
    && var dep := db.deposits[key];
       && dep.sats == sats && dep.confidence != Mempool && sats >= cfg.minDepositSats
       && dep.intentId.Some? && dep.intentId.value in db.intents
       && db.intents[dep.intentId.value].kind == DepositIntent
  }

  predicate TagFits(j: Job, tag: Receipt.Tag, sats: nat) {
    tag == TagFor(j, sats) && Receipt.ValidTag(tag)
  }

  /** A bound receipt names a redeem intent of the receipt's own holder. */
  predicate BoundTo(db: Db, rec: MintRecord) {
    rec.redeemIntentId.Some? ==>
      && rec.redeemIntentId.value in db.intents
      && db.intents[rec.redeemIntentId.value].kind == RedeemIntent
      && db.intents[rec.redeemIntentId.value].ssqAddress == rec.ssqAddress
  }

  /** Backed by its deposit, and made out to the holder whom the deposit's intent names. */
  predicate MintSound(cfg: Config, db: Db, key: Outpoint, rec: MintRecord) {
    && Backed(cfg, db, key, rec.sats) && db.intents[db.deposits[key].intentId.value].ssqAddress == rec.ssqAddress
    && TagFits(Job(MintLeg, key), rec.tag, rec.sats) && BoundTo(db, rec)
  }

  predicate ConvertSound(db: Db, key: Outpoint, rec: ConvertRecord) {
    && key in db.mints && db.mints[key].status != Minting && rec.sats == db.mints[key].sats
    && TagFits(Job(ConvertLeg, key), rec.tag, rec.sats)
  }

  ghost predicate Sound(cfg: Config, db: Db) {
    && (forall k :: k in db.mints ==> MintSound(cfg, db, k, db.mints[k]))
    && (forall k :: k in db.converts ==> ConvertSound(db, k, db.converts[k]))
  }

  /** Every claim was made at a height the chain had then. */
  ghost predicate HeightsBelow(cfg: Config, db: Db, n: nat) {
    forall j: Job :: ClaimOf(cfg, db, j).Some? ==> ClaimOf(cfg, db, j).value.height < n
  }

  ghost predicate StoreInv(cfg: Config, s: StoreState, n: nat) {
    && s.written <= |s.log|
    && Ordered(cfg, s)
    && (forall i :: 0 <= i <= |s.log| + 1 ==> Sound(cfg, Snap(s, i)))
    && HeightsBelow(cfg, s.db, n)
  }

  /** A record waiting to be claimed. */
  ghost predicate CandidateOk(cfg: Config, db: Db, c: Candidate, n: nat) {
    && c.Height() < n
    && match c
       case MintCandidate(key, rec) =>
         && rec.status == Minting && rec.mintTxid.None? && rec.redeemIntentId.None? && rec.releaseTxid.None?
         && MintSound(cfg, db, key, rec)
       case ConvertCandidate(key, rec) => rec.treasuryTxid.None? && !rec.converted && ConvertSound(db, key, rec)
  }

  // ---- one stretch of gateway code ----

  /** The store is unchanged, or a good new memory was queued for writing. */
  ghost predicate Moved(cfg: Config, s: StoreState, s': StoreState, n: nat) {
    s' == s || (&& s' == Persist(s.(db := s'.db))
                && Keeps(cfg, s.db, s'.db) && Sound(cfg, s'.db) && HeightsBelow(cfg, s'.db, n))
  }

  lemma KeepsReflexive(cfg: Config, a: Db)
    ensures Keeps(cfg, a, a)
  {
  }

  lemma KeepsTransitive(cfg: Config, a: Db, b: Db, c: Db)
    requires Keeps(cfg, a, b) && Keeps(cfg, b, c)
    ensures Keeps(cfg, a, c)
  {
  }

  lemma MovedKeepsOrder(cfg: Config, s: StoreState, s': StoreState, n: nat)
    requires StoreInv(cfg, s, n) && Moved(cfg, s, s', n)
    ensures StoreInv(cfg, s', n) && Disk(s') == Disk(s) && Keeps(cfg, s.db, s'.db)
    ensures forall i :: 0 <= i <= |s.log| ==> Snap(s', i) == Snap(s, i)
  {
    hide Keeps, Sound, HeightsBelow;
    if s' != s {
      forall i | 0 <= i <= |s'.log| + 1
        ensures Snap(s', i) == if i <= |s.log| then Snap(s, i) else s'.db
      {
      }
      KeepsReflexive(cfg, s'.db);
      assert Snap(s, |s.log| + 1) == s.db;
      forall i, j | 0 <= i <= j <= |s'.log| + 1
        ensures Keeps(cfg, Snap(s', i), Snap(s', j))
      {
        if i <= |s.log| < j {
          KeepsTransitive(cfg, Snap(s, i), s.db, s'.db);
        }
      }
    } else {
      KeepsReflexive(cfg, s.db);
    }
  }

  lemma NowSound(cfg: Config, s: StoreState, n: nat)
    requires StoreInv(cfg, s, n)
    ensures Sound(cfg, s.db) && HeightsBelow(cfg, s.db, n)
    ensures forall k :: k in s.db.mints ==> MintSound(cfg, s.db, k, s.db.mints[k])
  {
    assert Sound(cfg, Snap(s, |s.log| + 1));
  }

  ghost predicate SameClaims(cfg: Config, a: Db, b: Db) {
    forall j: Job :: ClaimOf(cfg, b, j) == ClaimOf(cfg, a, j)
  }

  /** With the same claims, what else must hold of a new memory. */
  lemma MovedIf(cfg: Config, s: StoreState, db': Db, n: nat)
    requires SameClaims(cfg, s.db, db') && HeightsBelow(cfg, s.db, n) && Sound(cfg, db')
    requires forall k :: k in s.db.mints ==> k in db'.mints && MintKept(s.db.mints[k], db'.mints[k])
    requires forall k :: k in s.db.deposits ==> k in db'.deposits && DepositKept(s.db.deposits[k], db'.deposits[k])
    requires forall id :: id in s.db.intents ==> id in db'.intents && IntentKept(s.db.intents[id], db'.intents[id])
    ensures Moved(cfg, s, Persist(s.(db := db')), n)
  {
    hide ClaimOf, Sound, DepositKept, IntentKept;
  }

  /** A known mint record changes, but not in what it was claimed for. */
  predicate SameMintClaim(a: MintRecord, b: MintRecord) {
    && b.tag == a.tag && b.sats == a.sats && b.ssqAddress == a.ssqAddress && b.claimHeight == a.claimHeight
    && (a.status != Minting ==> b.status != Minting)
  }

  lemma UpdatedMintSound(cfg: Config, db: Db, key: Outpoint, rec: MintRecord)
    requires Sound(cfg, db) && key in db.mints && BoundTo(db, rec) && SameMintClaim(db.mints[key], rec)
    ensures Sound(cfg, db.(mints := db.mints[key := rec]))
  {
    hide TagFits;
    var db' := db.(mints := db.mints[key := rec]);
    forall k | k in db'.mints ensures MintSound(cfg, db', k, db'.mints[k]) {
      assert MintSound(cfg, db, k, db.mints[k]);
    }
    forall k | k in db'.converts ensures ConvertSound(db', k, db'.converts[k]) {
      assert ConvertSound(db, k, db.converts[k]);
    }
  }

  lemma UpdatedMintClaims(cfg: Config, db: Db, key: Outpoint, rec: MintRecord)
    requires key in db.mints && SameMintClaim(db.mints[key], rec)
    ensures SameClaims(cfg, db, db.(mints := db.mints[key := rec]))
  {
  }

  lemma MintUpdated(cfg: Config, s: StoreState, key: Outpoint, rec: MintRecord, n: nat)
    requires StoreInv(cfg, s, n)
    requires key in s.db.mints && BoundTo(s.db, rec) && SameMintClaim(s.db.mints[key], rec)
    ensures Moved(cfg, s, WithMint(s, key, rec), n)
  {
    hide StoreInv, Moved, Sound, HeightsBelow, SameClaims, BoundTo;
    NowSound(cfg, s, n);
    UpdatedMintSound(cfg, s.db, key, rec);
    UpdatedMintClaims(cfg, s.db, key, rec);
    MovedIf(cfg, s, s.db.(mints := s.db.mints[key := rec]), n);
  }

  predicate SameConvertClaim(a: ConvertRecord, b: ConvertRecord) {
    b.tag == a.tag && b.sats == a.sats && b.claimHeight == a.claimHeight
  }

  lemma UpdatedConvertSound(cfg: Config, db: Db, key: Outpoint, rec: ConvertRecord)
    requires Sound(cfg, db) && key in db.converts && SameConvertClaim(db.converts[key], rec)
    ensures Sound(cfg, db.(converts := db.converts[key := rec]))
  {
    hide TagFits;
    var db' := db.(converts := db.converts[key := rec]);
    forall k | k in db'.mints ensures MintSound(cfg, db', k, db'.mints[k]) {
      assert MintSound(cfg, db, k, db.mints[k]);
    }
    forall k | k in db'.converts ensures ConvertSound(db', k, db'.converts[k]) {
      assert ConvertSound(db, k, db.converts[k]);
    }
  }

  lemma UpdatedConvertClaims(cfg: Config, db: Db, key: Outpoint, rec: ConvertRecord)
    requires key in db.converts && SameConvertClaim(db.converts[key], rec)
    ensures SameClaims(cfg, db, db.(converts := db.converts[key := rec]))
  {
  }

  lemma ConvertUpdated(cfg: Config, s: StoreState, key: Outpoint, rec: ConvertRecord, n: nat)
    requires StoreInv(cfg, s, n)
    requires key in s.db.converts && SameConvertClaim(s.db.converts[key], rec)
    ensures Moved(cfg, s, WithConvert(s, key, rec), n)
  {
    hide StoreInv, Moved, Sound, HeightsBelow, SameClaims;
    NowSound(cfg, s, n);
    UpdatedConvertSound(cfg, s.db, key, rec);
    UpdatedConvertClaims(cfg, s.db, key, rec);
    MovedIf(cfg, s, s.db.(converts := s.db.converts[key := rec]), n);
  }

  /** Deposits and intents only grow. */
  ghost predicate BooksKept(a: Db, b: Db) {
    && b.mints == a.mints && b.converts == a.converts
    && (forall k :: k in a.deposits ==> k in b.deposits && DepositKept(a.deposits[k], b.deposits[k]))
    && (forall id :: id in a.intents ==> id in b.intents && IntentKept(a.intents[id], b.intents[id]))
  }

  lemma GrownSound(cfg: Config, db: Db, db': Db)
    requires Sound(cfg, db) && BooksKept(db, db')
    ensures Sound(cfg, db')
  {
    hide TagFits;
    forall k | k in db'.mints ensures MintSound(cfg, db', k, db'.mints[k]) {
      assert MintSound(cfg, db, k, db.mints[k]);
    }
    forall k | k in db'.converts ensures ConvertSound(db', k, db'.converts[k]) {
      assert ConvertSound(db, k, db.converts[k]);
    }
  }

  lemma GrownClaims(cfg: Config, db: Db, db': Db)
    requires BooksKept(db, db')
    ensures SameClaims(cfg, db, db')
  {
    hide DepositKept, IntentKept;
  }

  lemma BooksGrow(cfg: Config, s: StoreState, db': Db, n: nat)
    requires StoreInv(cfg, s, n) && BooksKept(s.db, db')
    ensures Moved(cfg, s, Persist(s.(db := db')), n)
  {
    hide StoreInv, Moved, Sound, HeightsBelow, SameClaims, DepositKept, IntentKept;
    NowSound(cfg, s, n);
    GrownSound(cfg, s.db, db');
    GrownClaims(cfg, s.db, db');
    MovedIf(cfg, s, db', n);
  }

  lemma ClaimMoves(cfg: Config, s: StoreState, c: Candidate, n: nat)
    requires StoreInv(cfg, s, n) && CandidateOk(cfg, s.db, c, n)
    ensures Moved(cfg, s, ClaimStore(s, c), n)
  {
    hide Ordered;
    NowSound(cfg, s, n);
    match c
    case MintCandidate(key, rec) =>
      if key !in s.db.mints {
        NewMintKeeps(cfg, s.db, key, rec, n);
      }
    case ConvertCandidate(key, rec) =>
      if key !in s.db.converts {
        NewConvertKeeps(cfg, s.db, key, rec, n);
      }
  }

  lemma NewMintKeeps(cfg: Config, db: Db, key: Outpoint, rec: MintRecord, n: nat)
    requires Sound(cfg, db) && HeightsBelow(cfg, db, n)
    requires key !in db.mints && rec.claimHeight < n && MintSound(cfg, db, key, rec)
    ensures var db' := db.(mints := db.mints[key := rec]);
            Keeps(cfg, db, db') && Sound(cfg, db') && HeightsBelow(cfg, db', n)
  {
    hide Sound, MintSound;
    var db' := db.(mints := db.mints[key := rec]);
    NewMintSound(cfg, db, key, rec);
    forall j: Job
      ensures ClaimOf(cfg, db, j).Some? ==> ClaimOf(cfg, db', j) == ClaimOf(cfg, db, j)
      ensures ClaimOf(cfg, db', j).Some? ==> ClaimOf(cfg, db', j).value.height < n
    {
      assert ClaimOf(cfg, db, j).Some? ==> ClaimOf(cfg, db, j).value.height < n;
    }
  }

  lemma NewMintSound(cfg: Config, db: Db, key: Outpoint, rec: MintRecord)
    requires Sound(cfg, db) && key !in db.mints && MintSound(cfg, db, key, rec)
    ensures Sound(cfg, db.(mints := db.mints[key := rec]))
  {
    hide TagFits;
    var db' := db.(mints := db.mints[key := rec]);
    forall k | k in db'.mints ensures MintSound(cfg, db', k, db'.mints[k]) {
      assert k in db.mints ==> MintSound(cfg, db, k, db.mints[k]);
    }
    forall k | k in db'.converts ensures ConvertSound(db', k, db'.converts[k]) {
      assert ConvertSound(db, k, db.converts[k]);
    }
  }

  lemma NewConvertKeeps(cfg: Config, db: Db, key: Outpoint, rec: ConvertRecord, n: nat)
    requires Sound(cfg, db) && HeightsBelow(cfg, db, n)
    requires key !in db.converts && rec.claimHeight < n && ConvertSound(db, key, rec)
    ensures var db' := db.(converts := db.converts[key := rec]);
            Keeps(cfg, db, db') && Sound(cfg, db') && HeightsBelow(cfg, db', n)
  {
    hide Sound, ConvertSound;
    var db' := db.(converts := db.converts[key := rec]);
    NewConvertSound(cfg, db, key, rec);
    forall j: Job
      ensures ClaimOf(cfg, db, j).Some? ==> ClaimOf(cfg, db', j) == ClaimOf(cfg, db, j)
      ensures ClaimOf(cfg, db', j).Some? ==> ClaimOf(cfg, db', j).value.height < n
    {
      assert ClaimOf(cfg, db, j).Some? ==> ClaimOf(cfg, db, j).value.height < n;
    }
  }

  lemma NewConvertSound(cfg: Config, db: Db, key: Outpoint, rec: ConvertRecord)
    requires Sound(cfg, db) && key !in db.converts && ConvertSound(db, key, rec)
    ensures Sound(cfg, db.(converts := db.converts[key := rec]))
  {
    hide TagFits;
    var db' := db.(converts := db.converts[key := rec]);
    forall k | k in db'.mints ensures MintSound(cfg, db', k, db'.mints[k]) {
      assert MintSound(cfg, db, k, db.mints[k]);
    }
  }

  lemma SentMoves(cfg: Config, s: StoreState, j: Job, txid: string, n: nat)
    requires StoreInv(cfg, s, n) && HasRecord(s.db, j)
    ensures Moved(cfg, s, SentStore(s, j, txid), n)
  {
    hide Ordered, Moved;
    NowSound(cfg, s, n);
    if j.leg.MintLeg? {
      MintUpdated(cfg, s, j.key, s.db.mints[j.key].(status := Minted, mintTxid := Some(txid)), n);
    } else {
      ConvertUpdated(cfg, s, j.key, s.db.converts[j.key].(treasuryTxid := Some(txid)), n);
    }
  }

  lemma AttemptMoves(cfg: Config, s: StoreState, j: Job, n: nat)
    requires StoreInv(cfg, s, n) && HasRecord(s.db, j)
    ensures Moved(cfg, s, AttemptStore(s, j), n)
  {
    hide Ordered, Moved;
    NowSound(cfg, s, n);
    if j.leg.MintLeg? {
      var rec := s.db.mints[j.key];
      MintUpdated(cfg, s, j.key, rec.(attempts := rec.attempts + 1), n);
    } else {
      var rec := s.db.converts[j.key];
      ConvertUpdated(cfg, s, j.key, rec.(attempts := rec.attempts + 1), n);
    }
  }

  lemma ScannedMoves(cfg: Config, s: StoreState, j: Job, r: Scan.ScanResult, n: nat)
    requires StoreInv(cfg, s, n) && HasRecord(s.db, j)
    ensures Moved(cfg, s, ScannedStore(cfg, s, j, r), n)
  {
    hide StoreInv, Moved;
    BooksGrow(cfg, s, s.db, n);
    match r
    case Found(tx) => SentMoves(cfg, s, j, tx.txid, n);
    case NotFound => AttemptMoves(cfg, s, j, n);
    case Threw =>
  }

  lemma RedeemedMoves(cfg: Config, s: StoreState, key: Outpoint, txid: string, n: nat)
    requires StoreInv(cfg, s, n) && key in s.db.mints
    ensures Moved(cfg, s, RedeemedStore(s, key, txid), n)
  {
    hide Ordered, Moved;
    NowSound(cfg, s, n);
    MintUpdated(cfg, s, key, s.db.mints[key].(status := Redeemed, releaseTxid := Some(txid)), n);
  }

  lemma BoundMoves(cfg: Config, s: StoreState, key: Outpoint, id: IntentId, spendTxid: string, n: nat)
    requires StoreInv(cfg, s, n) && Payout.BindsTo(s.db, key, id)
    ensures Moved(cfg, s, BoundStore(s, key, id, spendTxid), n)
  {
    hide Ordered, Moved;
    MintUpdated(cfg, s, key, BoundStore(s, key, id, spendTxid).db.mints[key], n);
  }

  /** What a returned receipt is bound to may be bound to it. */
  lemma ChoiceBinds(w: World, key: Outpoint, height: nat, tx: Scan.Tx, intents: seq<Payout.Listed>)
    requires MayBind(w, key, height, tx, intents)
    ensures key in w.store.db.mints && ChoiceFor(w.cfg, w.store.db.mints[key].ssqAddress, tx, intents).Some?
    ensures var chosen := ChoiceFor(w.cfg, w.store.db.mints[key].ssqAddress, tx, intents).value;
            && Payout.BindsTo(w.store.db, key, chosen.id) && chosen.intent == w.store.db.intents[chosen.id]
  {
    hide Payout.Choose, Scan.FirstTag, Payout.CommitsTo;
    Payout.ChosenMayBind(w.cfg.digest, w.store.db, intents, key, Scan.FirstTag(tx.outputs));
  }

  predicate TouchesDisk(l: Step) {
    l.WriteSnapshot? || l.WriteFails? || l.CrashAndReload?
  }

  predicate MovesBooks(l: Step) {
    l.AddIntent? || l.ExpireIntent? || l.NoteIntent? || l.DepositEvent? || l.HoldDeposit?
    || l.AttemptFails? || l.ReleaseFails? || l.PersistAgain?
  }

  predicate MovesAttempts(l: Step) {
    l.ClaimKey? || l.EndScan? || l.SignerReplies? || l.ConvertDone?
  }

  predicate MovesReleases(l: Step) {
    l.ReceiptReturned? || l.HistoryArrives? || l.ReleaseReplies?
  }

  lemma BooksMove(w: World, l: Step, n: nat)
    requires Enabled(w, l) && MovesBooks(l) && StoreInv(w.cfg, w.store, n)
    ensures Moved(w.cfg, w.store, Next(w, l).store, n)
  {
    hide Enabled, Next, StoreInv, Moved;
    if l.AddIntent? || l.ExpireIntent? || l.NoteIntent? {
      IntentsMove(w, l, n);
    } else if l.DepositEvent? {
      DepositMoves(w, l, n);
    } else if l.HoldDeposit? {
      HoldMoves(w, l, n);
    } else {
      NotesMove(w, l, n);
    }
  }

  lemma IntentsMove(w: World, l: Step, n: nat)
    requires Enabled(w, l) && (l.AddIntent? || l.ExpireIntent? || l.NoteIntent?) && StoreInv(w.cfg, w.store, n)
    ensures Moved(w.cfg, w.store, Next(w, l).store, n)
  {
    hide StoreInv, Moved;
    BooksGrow(w.cfg, w.store, Next(w, l).store.db, n);
  }

  lemma DepositMoves(w: World, l: Step, n: nat)
    requires Enabled(w, l) && l.DepositEvent? && StoreInv(w.cfg, w.store, n)
    ensures Moved(w.cfg, w.store, Next(w, l).store, n)
  {
    hide StoreInv, Moved;
    BooksGrow(w.cfg, w.store, Next(w, l).store.db, n);
  }

  lemma HoldMoves(w: World, l: Step, n: nat)
    requires Enabled(w, l) && l.HoldDeposit? && StoreInv(w.cfg, w.store, n)
    ensures Moved(w.cfg, w.store, Next(w, l).store, n)
  {
    hide StoreInv, Moved;
    BooksGrow(w.cfg, w.store, Next(w, l).store.db, n);
  }

  lemma NotesMove(w: World, l: Step, n: nat)
    requires Enabled(w, l) && (l.AttemptFails? || l.ReleaseFails? || l.PersistAgain?) && StoreInv(w.cfg, w.store, n)
    ensures Moved(w.cfg, w.store, Next(w, l).store, n)
  {
    hide StoreInv, Moved;
    BooksGrow(w.cfg, w.store, w.store.db, n);
  }

  lemma AttemptsMove(w: World, l: Step, n: nat)
    requires Enabled(w, l) && MovesAttempts(l) && StoreInv(w.cfg, w.store, n)
    requires forall c :: c in w.claiming ==> CandidateOk(w.cfg, w.store.db, c, n)
    ensures Moved(w.cfg, w.store, Next(w, l).store, n)
  {
    hide StoreInv, Moved, CandidateOk, ScannedStore, SentStore, ClaimStore, Scan.ScanContract;
    var cfg, s := w.cfg, w.store;
    match l
    case ClaimKey(c) => ClaimMoves(cfg, s, c, n);
    case EndScan(j, r) => ScannedMoves(cfg, s, j, r, n);
    case SignerReplies(j) => SentMoves(cfg, s, j, w.calls[w.attempts[j].call].state.tx.txid, n);
    case ConvertDone(j) => ConvertUpdated(cfg, s, j.key, s.db.converts[j.key].(converted := true), n);
  }

  lemma ReleasesMove(w: World, l: Step, n: nat)
    requires Enabled(w, l) && MovesReleases(l) && StoreInv(w.cfg, w.store, n)
    ensures Moved(w.cfg, w.store, Next(w, l).store, n)
  {
    hide Enabled, Next, StoreInv, Moved;
    if l.ReceiptReturned? {
      BindingMoves(w, l, n);
    } else {
      RedeemingMoves(w, l, n);
    }
  }

  lemma BindingMoves(w: World, l: Step, n: nat)
    requires Enabled(w, l) && l.ReceiptReturned? && StoreInv(w.cfg, w.store, n)
    ensures Moved(w.cfg, w.store, Next(w, l).store, n)
  {
    hide StoreInv, Moved, BoundStore, ChoiceFor, MayBind;
    var cfg, s := w.cfg, w.store;
    ChoiceBinds(w, l.key, l.height, l.tx, l.intents);
    BoundMoves(cfg, s, l.key, ChoiceFor(cfg, s.db.mints[l.key].ssqAddress, l.tx, l.intents).value.id, l.tx.txid, n);
  }

  lemma RedeemingMoves(w: World, l: Step, n: nat)
    requires Enabled(w, l) && (l.HistoryArrives? || l.ReleaseReplies?) && StoreInv(w.cfg, w.store, n)
    ensures Moved(w.cfg, w.store, Next(w, l).store, n)
  {
    hide StoreInv, Moved, RedeemedStore, Already;
    var cfg, s := w.cfg, w.store;
    if l.ReleaseReplies? {
      RedeemedMoves(cfg, s, w.release.key, w.pays[w.release.pay].state.txid, n);
    } else if Already(w, l.upTo).Some? {
      RedeemedMoves(cfg, s, w.release.key, Already(w, l.upTo).value, n);
    } else {
      MovedSame(cfg, s, n);
    }
  }

  lemma StoreLeftAlone(w: World, l: Step)
    requires Enabled(w, l) && !MovesBooks(l) && !MovesAttempts(l) && !MovesReleases(l) && !TouchesDisk(l)
    ensures Next(w, l).store == w.store
  {
  }

  /** Every step of the gateway and of the outside world moves the store as it should. */
  lemma StepMoves(w: World, l: Step, n: nat)
    requires Enabled(w, l) && !TouchesDisk(l)
    requires StoreInv(w.cfg, w.store, n)
    requires forall c :: c in w.claiming ==> CandidateOk(w.cfg, w.store.db, c, n)
    ensures Moved(w.cfg, w.store, Next(w, l).store, n)
  {
    hide StoreInv, Moved, CandidateOk, Enabled, Next;
    if MovesBooks(l) {
      BooksMove(w, l, n);
    } else if MovesAttempts(l) {
      AttemptsMove(w, l, n);
    } else if MovesReleases(l) {
      ReleasesMove(w, l, n);
    } else {
      StoreLeftAlone(w, l);
      MovedSame(w.cfg, w.store, n);
    }
  }

  lemma MovedSame(cfg: Config, s: StoreState, n: nat)
    ensures Moved(cfg, s, s, n)
  {
  }

  // ---- the disk ----

  lemma WriteMoves(cfg: Config, s: StoreState, n: nat)
    requires StoreInv(cfg, s, n) && s.written < |s.log|
    ensures StoreInv(cfg, s.(written := s.written + 1), n)
    ensures Keeps(cfg, Disk(s), Disk(s.(written := s.written + 1)))
  {
    hide Keeps, Sound, HeightsBelow;
    var s' := s.(written := s.written + 1);
    forall i | 0 <= i <= |s.log| + 1 ensures Snap(s', i) == Snap(s, i) {
    }
  }

  lemma FailMoves(cfg: Config, s: StoreState, n: nat)
    requires StoreInv(cfg, s, n)
    ensures StoreInv(cfg, s.(failed := true), n)
  {
    hide Keeps, Sound, HeightsBelow;
    var s' := s.(failed := true);
    forall i | 0 <= i <= |s.log| + 1 ensures Snap(s', i) == Snap(s, i) {
    }
  }

  lemma ReloadMoves(cfg: Config, s: StoreState, n: nat)
    requires StoreInv(cfg, s, n)
    ensures StoreInv(cfg, Loaded(Disk(s)), n)
  {
    KeepsReflexive(cfg, Disk(s));
    assert Keeps(cfg, Disk(s), Snap(s, |s.log| + 1));
    assert Sound(cfg, Disk(s));
  }

  lemma EmptyStore(cfg: Config, n: nat)
    ensures StoreInv(cfg, Loaded(EMPTY_DB), n)
  {
  }
}
