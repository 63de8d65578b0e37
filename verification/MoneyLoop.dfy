/** The money loop as a transition system: the gateway's memory and disk, the stagenet chain,
    the mint signer and the release wallet, moved by one labelled step at a time.  A step is
    a stretch of gateway code between two awaits, or something the outside world does. */
module MoneyLoop {
  import opened ByteStrings
  import opened Store
  import opened Gateway
  import Payout
  import Receipt
  import Scan

  datatype CallState = Pending | Broadcast(tx: Scan.Tx) | Dropped

  /** A request to the mint signer: it may be answered, or outlive the attempt that made it. */
  datatype SignerCall = SignerCall(job: Job, payTo: string, script: string, state: CallState)

  /** Where an attempt stands: waiting for the scan that began on `start`, for its record to
      be written, or for the signer; or it is done and about to release its key. */
  datatype Stage = Scanning(start: Scan.Chain) | Recording(ticket: nat) | Calling(call: nat) | Finishing

  datatype PayState = Unanswered | Sent(txid: string) | Refused

  /** A sendtoaddress request. */
  datatype PayCall = PayCall(key: Outpoint, intent: IntentId, address: string, sats: nat, state: PayState)

  /** The one task that binds receipts and releases bitcoin: waiting for a record to be
      written before it updates the intent, about to release what it has just bound, waiting
      for the wallet's history, which it asked for when that had `seen` entries, or for the
      wallet's payment. */
  datatype ReleaseStage =
    | Idle
    | Noting(key: Outpoint, intent: IntentId, status: RedeemStatus, ticket: nat)
    | Ready(key: Outpoint)
    | Checking(key: Outpoint, target: Target, seen: nat)
    | Paying(key: Outpoint, pay: nat)

  /** `first` has the mint claims whose own first attempt is still to begin, each with the place
      in the log of its record, which that attempt waits for. */
  datatype World = World(cfg: Config, store: StoreState, claiming: set<Candidate>, first: map<Outpoint, nat>,
                         attempts: map<Job, Stage>,
                         calls: seq<SignerCall>, chain: Scan.Chain,
                         release: ReleaseStage, pays: seq<PayCall>, wallet: seq<WalletEntry>)

  datatype Step =
    // intents and deposits
    | AddIntent(id: IntentId, intent: Intent)
    | ExpireIntent(id: IntentId)
    | DepositEvent(key: Outpoint, sats: nat, address: string, confidence: Confidence, intentId: Option<IntentId>)
    | HoldDeposit(key: Outpoint, reason: HeldReason)
    // claims and attempts
    | ReadTip(job: Job)
    | ClaimKey(candidate: Candidate)
    | BeginAttempt(job: Job, first: bool)
    | EndScan(job: Job, result: Scan.ScanResult)
    | CallSigner(job: Job)
    | SignerReplies(job: Job)
    | AttemptFails(job: Job)
    | ConvertDone(job: Job)
    | EndAttempt(job: Job)
    // the signer and the chain
    | SignerBroadcasts(call: nat, tx: Scan.Tx)
    | SignerDrops(call: nat)
    | ChainMoves(next: Scan.Chain)
    // the disk
    | WriteSnapshot
    | WriteFails
    | PersistAgain
    | CrashAndReload
    // redemption
    | ReceiptReturned(key: Outpoint, height: nat, tx: Scan.Tx, intents: seq<Payout.Listed>)
    | NoteIntent
    | GiveUpNoting
    | DeferRelease
    | BeginRelease(key: Outpoint)
    | HistoryArrives(upTo: nat)
    | WalletSends(pay: nat, txid: string)
    | WalletRefuses(pay: nat)
    | WalletGrows(entry: WalletEntry)
    | ReleaseReplies
    | ReleaseFails

  /** No tag but the requested one is in the transaction: the signer puts one payload in. */
  ghost predicate BuiltFor(tx: Scan.Tx, script: string) {
    && Scan.Carries(tx, script)
    && forall t: Receipt.Tag :: Receipt.ValidTag(t) && Scan.Carries(tx, ScriptOf(t)) ==> ScriptOf(t) == script
  }

  /** `tx` brings the receipt that was minted as `mintTxid` back: it spends output 0 of the
      mint and pays the redemption address. */
  predicate Returns(cfg: Config, mintTxid: string, tx: Scan.Tx) {
    Scan.Spend(mintTxid, 0) in tx.inputs && Scan.PaidTo(tx.outputs, cfg.redemptionAddress) > 0
  }

  /** The intent that a returned receipt is bound to. */
  function ChoiceFor(cfg: Config, holder: string, tx: Scan.Tx, intents: seq<Payout.Listed>): Option<Payout.Listed> {
    Payout.Choose(cfg.digest, intents, holder, Scan.FirstTag(tx.outputs))
  }

  /** The scan of a block meets the transaction that returns the receipt of a minted record,
      and an intent is chosen for it. */
  ghost predicate MayBind(w: World, key: Outpoint, height: nat, tx: Scan.Tx, intents: seq<Payout.Listed>) {
    var db := w.store.db;
    && key in db.mints && db.mints[key].status == Minted && db.mints[key].mintTxid.Some?
    && height < |w.chain.blocks| && tx in w.chain.blocks[height]
    && Returns(w.cfg, db.mints[key].mintTxid.value, tx)
    && Payout.IsListing(db, intents)
    && ChoiceFor(w.cfg, db.mints[key].ssqAddress, tx, intents).Some?
  }

  /** What the wallet answers when it has `upTo` entries. */
  function History(w: World, upTo: nat): seq<WalletEntry>
    requires upTo <= |w.wallet|
  {
    Recent(w.wallet[..upTo])
  }

  /** The payment that the history shows to have been made already. */
  function Already(w: World, upTo: nat): Option<string>
    requires w.release.Checking? && upTo <= |w.wallet|
  {
    FirstRelease(History(w, upTo), w.release.target.intent)
  }

  /** A mint attempt is begun by the tick or at boot, on a record that is being minted, or as the
      first one by the call that claimed the deposit, which does not look at the status again. */
  predicate MayBegin(w: World, j: Job, first: bool) {
    j.leg.MintLeg? ==>
      if first then j.key in w.first && w.store.written >= w.first[j.key]
      else j.key in w.store.db.mints && w.store.db.mints[j.key].status == Minting
  }

  /** When the code, or the outside world, can take the step. */
  ghost predicate Enabled(w: World, l: Step) {
    var db := w.store.db;
    match l
    case AddIntent(id, intent) => id !in db.intents
    case ExpireIntent(id) => id in db.intents && db.intents[id].status == AwaitingReceipt
    case DepositEvent(key, sats, address, confidence, intentId) =>
      && IsNews(db, key, confidence)
      && (intentId.Some? ==> intentId.value in db.intents && db.intents[intentId.value].kind == DepositIntent)
    case HoldDeposit(key, reason) => key in db.deposits && key !in db.mints
    case ReadTip(j) => Eligible(w.cfg, db, j) && |w.chain.blocks| > 0
    case ClaimKey(c) => c in w.claiming
    case BeginAttempt(j, first) => HasRecord(db, j) && NeedsSend(db, j) && j !in w.attempts && MayBegin(w, j, first)
    case EndScan(j, r) =>
      && HasRecord(db, j) && j in w.attempts && w.attempts[j].Scanning?
      && Scan.ScanContract(w.attempts[j].start, w.chain, ScriptOf(ClaimOf(w.cfg, db, j).value.tag),
                           ClaimOf(w.cfg, db, j).value.height, r)
    case CallSigner(j) =>
      HasRecord(db, j) && j in w.attempts && w.attempts[j].Recording? && w.store.written >= w.attempts[j].ticket
    case SignerReplies(j) =>
      && HasRecord(db, j) && j in w.attempts && w.attempts[j].Calling? && w.attempts[j].call < |w.calls|
      && w.calls[w.attempts[j].call].state.Broadcast?
    case AttemptFails(j) =>
      j in w.attempts && (w.attempts[j].Calling? || (w.attempts[j].Recording? && w.store.failed))
    case ConvertDone(j) =>
      && j in w.attempts && w.attempts[j].Finishing? && j.leg.ConvertLeg?
      && j.key in db.converts && db.converts[j.key].treasuryTxid.Some?
    case EndAttempt(j) => j in w.attempts && w.attempts[j].Finishing?
    case SignerBroadcasts(i, tx) => i < |w.calls| && w.calls[i].state.Pending? && BuiltFor(tx, w.calls[i].script)
    case SignerDrops(i) => i < |w.calls| && w.calls[i].state.Pending?
    case ChainMoves(next) => true
    case WriteSnapshot => !w.store.failed && w.store.written < |w.store.log|
    case WriteFails => !w.store.failed && w.store.written < |w.store.log|
    case PersistAgain => true
    case CrashAndReload => true
    case ReceiptReturned(key, height, tx, intents) => w.release.Idle? && MayBind(w, key, height, tx, intents)
    case NoteIntent => w.release.Noting? && w.store.written >= w.release.ticket && w.release.intent in db.intents
    case GiveUpNoting => w.release.Noting? && w.store.failed
    case DeferRelease => w.release.Ready?
    case BeginRelease(key) =>
      && key in db.mints && ReleaseTarget(db, key).Some?
      && (w.release == Ready(key) || (w.release.Idle? && db.mints[key].status == Redeeming))
    case HistoryArrives(upTo) =>
      w.release.Checking? && w.release.seen <= upTo <= |w.wallet| && w.release.key in db.mints
    case WalletSends(p, txid) => p < |w.pays| && w.pays[p].state.Unanswered?
    case WalletRefuses(p) => p < |w.pays| && w.pays[p].state.Unanswered?
    case WalletGrows(e) => true
    case ReleaseReplies =>
      && w.release.Paying? && w.release.pay < |w.pays| && w.pays[w.release.pay].state.Sent?
      && w.release.key in db.mints
    case ReleaseFails => w.release.Checking? || w.release.Paying?
  }

  /** No payment request of the intent is still open. */
  predicate NoneOpen(pays: seq<PayCall>, id: IntentId) {
    forall p :: 0 <= p < |pays| && pays[p].intent == id ==> !pays[p].state.Unanswered?
  }

  /** What the code relies on the outside world for. */
  ghost predicate Assumed(w: World, l: Step) {
    match l
    case BeginAttempt(j, _) =>
      // an abandoned request was carried out or dropped before the key's next scan
      forall i :: 0 <= i < |w.calls| && w.calls[i].job == j ==> !w.calls[i].state.Pending?
    case ChainMoves(next) =>
      // nothing is reorganised away or evicted
      Scan.Extends(w.chain, next)
    case BeginRelease(key) =>
      // the same for the wallet
      key in w.store.db.mints && w.store.db.mints[key].redeemIntentId.Some? ==>
        NoneOpen(w.pays, w.store.db.mints[key].redeemIntentId.value)
    case HistoryArrives(upTo) =>
      // an earlier payment is among its newest entries
      w.release.Checking? && upTo <= |w.wallet| ==>
        forall e :: e in w.wallet[..upTo] && IsRelease(e, w.release.target.intent) ==> e in History(w, upTo)
    case _ => true
  }

  function Next(w: World, l: Step): World
    requires Enabled(w, l)
  {
    var s, db := w.store, w.store.db;
    match l
    case AddIntent(id, intent) => w.(store := WithIntent(s, id, intent))
    case ExpireIntent(id) => w.(store := IntentStore(s, id, Expired))
    case DepositEvent(key, sats, address, confidence, intentId) =>
      w.(store := DepositStore(s, key, sats, address, confidence, intentId))
    case HoldDeposit(key, reason) => w.(store := WithDeposit(s, key, db.deposits[key].(held := Some(reason))))
    case ReadTip(j) => w.(claiming := w.claiming + {NewCandidate(w.cfg, db, j, |w.chain.blocks| - 1)})
    case ClaimKey(c) =>
      var s' := ClaimStore(s, c);
      w.(store := s', claiming := w.claiming - {c},
         first := if c.MintCandidate? && c.key !in db.mints then w.first[c.key := Ticket(s')] else w.first)
    case BeginAttempt(j, first) =>
      w.(attempts := w.attempts[j := Scanning(w.chain)],
         first := if first && j.leg.MintLeg? then w.first - {j.key} else w.first)
    case EndScan(j, r) =>
      var s' := ScannedStore(w.cfg, s, j, r);
      w.(store := s', attempts := w.attempts[j := if r.NotFound? then Recording(Ticket(s')) else Finishing])
    case CallSigner(j) =>
      var claim := ClaimOf(w.cfg, db, j).value;
      w.(calls := w.calls + [SignerCall(j, claim.payTo, ScriptOf(claim.tag), Pending)],
         attempts := w.attempts[j := Calling(|w.calls|)])
    case SignerReplies(j) =>
      w.(store := SentStore(s, j, w.calls[w.attempts[j].call].state.tx.txid), attempts := w.attempts[j := Finishing])
    case AttemptFails(j) => w.(store := NoteStore(s), attempts := w.attempts[j := Finishing])
    case ConvertDone(j) => w.(store := WithConvert(s, j.key, db.converts[j.key].(converted := true)))
    case EndAttempt(j) => w.(attempts := w.attempts - {j})
    case SignerBroadcasts(i, tx) =>
      w.(calls := w.calls[i := w.calls[i].(state := Broadcast(tx))],
         chain := w.chain.(mempool := w.chain.mempool + [tx]))
    case SignerDrops(i) => w.(calls := w.calls[i := w.calls[i].(state := Dropped)])
    case ChainMoves(next) => w.(chain := next)
    case WriteSnapshot => w.(store := s.(written := s.written + 1))
    case WriteFails => w.(store := s.(failed := true))
    case PersistAgain => w.(store := NoteStore(s))
    case CrashAndReload =>
      w.(store := Loaded(Disk(s)), claiming := {}, first := map[], attempts := map[], release := Idle)
    case ReceiptReturned(key, height, tx, intents) =>
      var id := ChoiceFor(w.cfg, db.mints[key].ssqAddress, tx, intents).value.id;
      var s' := BoundStore(s, key, id, tx.txid);
      w.(store := s', release := Noting(key, id, ReceiptReceived, Ticket(s')))
    case NoteIntent =>
      w.(store := IntentStore(s, w.release.intent, w.release.status),
         release := if w.release.status.ReceiptReceived? then Ready(w.release.key) else Idle)
    case GiveUpNoting => w.(release := Idle)
    case DeferRelease => w.(release := Idle)
    case BeginRelease(key) => w.(release := Checking(key, ReleaseTarget(db, key).value, |w.wallet|))
    case HistoryArrives(upTo) =>
      var key, target := w.release.key, w.release.target;
      (match Already(w, upTo)
       case Some(txid) =>
         var s' := RedeemedStore(s, key, txid);
         w.(store := s', release := Noting(key, target.intent, Released, Ticket(s')))
       case None =>
         w.(pays := w.pays + [PayCall(key, target.intent, target.address, db.mints[key].sats, Unanswered)],
            release := Paying(key, |w.pays|)))
    case WalletSends(p, txid) =>
      w.(pays := w.pays[p := w.pays[p].(state := Sent(txid))],
         wallet := w.wallet + [WalletEntry(true, Comment(w.pays[p].intent), txid)])
    case WalletRefuses(p) => w.(pays := w.pays[p := w.pays[p].(state := Refused)])
    case WalletGrows(e) => w.(wallet := w.wallet + [e])
    case ReleaseReplies =>
      var pay := w.pays[w.release.pay];
      var s' := RedeemedStore(s, w.release.key, pay.state.txid);
      w.(store := s', release := Noting(w.release.key, pay.intent, Released, Ticket(s')))
    case ReleaseFails => w.(store := NoteStore(s), release := Idle)
  }

  /** A first start: nothing on disk. */
  ghost predicate Initial(w: World) {
    && w.store == Loaded(EMPTY_DB) && w.claiming == {} && w.first == map[] && w.attempts == map[]
    && w.calls == [] && w.release == Idle && w.pays == []
  }

  /** `ws[i]` is the world after the first `i` steps. */
  ghost predicate IsRun(ws: seq<World>, ls: seq<Step>) {
    && |ws| == |ls| + 1
    && Initial(ws[0])
    && forall i :: 0 <= i < |ls| ==> Enabled(ws[i], ls[i]) && Assumed(ws[i], ls[i]) && ws[i + 1] == Next(ws[i], ls[i])
  }

  // ---- what a step leaves alone ----

  predicate MovesChain(l: Step) {
    l.SignerBroadcasts? || l.ChainMoves?
  }

  predicate MovesCalls(l: Step) {
    l.CallSigner? || l.SignerBroadcasts? || l.SignerDrops?
  }

  predicate MovesStages(l: Step) {
    l.BeginAttempt? || l.EndScan? || l.CallSigner? || l.SignerReplies? || l.AttemptFails? || l.EndAttempt?
    || l.CrashAndReload?
  }

  predicate MovesRelease(l: Step) {
    l.ReceiptReturned? || l.NoteIntent? || l.GiveUpNoting? || l.DeferRelease? || l.BeginRelease? || l.HistoryArrives?
    || l.ReleaseReplies? || l.ReleaseFails? || l.CrashAndReload?
  }

  predicate MovesWallet(l: Step) {
    l.WalletSends? || l.WalletRefuses? || l.WalletGrows?
  }

  /** Everything but the store, where the step does not belong to it. */
  ghost predicate Framed(w: World, l: Step, w': World) {
    && w'.cfg == w.cfg
    && (!MovesChain(l) ==> w'.chain == w.chain)
    && (!MovesCalls(l) ==> w'.calls == w.calls)
    && (!MovesStages(l) ==> w'.attempts == w.attempts)
    && (!MovesRelease(l) ==> w'.release == w.release)
    && (!MovesWallet(l) ==> w'.wallet == w.wallet)
    && (!MovesWallet(l) && !l.HistoryArrives? ==> w'.pays == w.pays)
  }

  lemma Frame(w: World, l: Step)
    requires Enabled(w, l)
    ensures Framed(w, l, Next(w, l))
  {
    hide Enabled, Next, Framed;
    if WritesRelease(l) {
      WriteFrame(w, l);
    } else if MovesRelease(l) {
      TaskFrame(w, l);
    } else if MovesStages(l) {
      StageFrame(w, l);
    } else {
      OtherFrame(w, l);
    }
  }

  predicate WritesRelease(l: Step) {
    l.ReceiptReturned? || l.NoteIntent? || l.HistoryArrives? || l.ReleaseReplies?
  }

  lemma WriteFrame(w: World, l: Step)
    requires Enabled(w, l) && WritesRelease(l)
    ensures Framed(w, l, Next(w, l))
  {
    hide FirstRelease, RedeemedStore, IntentStore, BoundStore, MayBind, ChoiceFor, Already;
  }

  lemma TaskFrame(w: World, l: Step)
    requires Enabled(w, l) && MovesRelease(l) && !WritesRelease(l)
    ensures Framed(w, l, Next(w, l))
  {
    hide NoteStore, Disk, ReleaseTarget, Loaded;
  }

  lemma StageFrame(w: World, l: Step)
    requires Enabled(w, l) && MovesStages(l) && !MovesRelease(l)
    ensures Framed(w, l, Next(w, l))
  {
    hide ScannedStore, SentStore, NoteStore, Scan.ScanContract, ClaimOf, ScriptOf;
  }

  lemma OtherFrame(w: World, l: Step)
    requires Enabled(w, l) && !MovesStages(l) && !MovesRelease(l)
    ensures Framed(w, l, Next(w, l))
  {
    hide IntentStore, DepositStore, ClaimStore, WithIntent, WithDeposit, WithConvert, IsNews, NewCandidate, Eligible,
         BuiltFor, Comment;
  }

  // ---- what a step writes into the mint records ----

  datatype Written = Written(key: Outpoint, rec: MintRecord)

  function FinalizedRecord(m: map<Outpoint, MintRecord>, key: Outpoint, txid: string): Option<Written>
    requires key in m
  {
    Some(Written(key, m[key].(status := Minted, mintTxid := Some(txid))))
  }

  function RedeemedRecord(m: map<Outpoint, MintRecord>, key: Outpoint, txid: string): Option<Written>
    requires key in m
  {
    Some(Written(key, m[key].(status := Redeemed, releaseTxid := Some(txid))))
  }

  function ScanWritten(cfg: Config, db: Db, j: Job, r: Scan.ScanResult): Option<Written>
    requires HasRecord(db, j)
  {
    if j.leg.ConvertLeg? then None
    else if Recovers(cfg, db, j, r) then FinalizedRecord(db.mints, j.key, r.tx.txid)
    else if r.NotFound? then Some(Written(j.key, db.mints[j.key].(attempts := db.mints[j.key].attempts + 1)))
    else None
  }

  /** The one record that the step writes, if it writes one. */
  function Writes(w: World, l: Step): Option<Written>
    requires Enabled(w, l)
  {
    var db, m := w.store.db, w.store.db.mints;
    match l
    case ClaimKey(c) => if c.MintCandidate? && c.key !in m then Some(Written(c.key, c.mint)) else None
    case EndScan(j, r) => ScanWritten(w.cfg, db, j, r)
    case SignerReplies(j) =>
      if j.leg.ConvertLeg? then None else FinalizedRecord(m, j.key, w.calls[w.attempts[j].call].state.tx.txid)
    case ReceiptReturned(key, height, tx, intents) =>
      var id := ChoiceFor(w.cfg, m[key].ssqAddress, tx, intents).value.id;
      Some(Written(key, m[key].(status := Redeeming, redeemIntentId := Some(id), receiptSpendTxid := Some(tx.txid))))
    case HistoryArrives(upTo) =>
      if Already(w, upTo).Some? then RedeemedRecord(m, w.release.key, Already(w, upTo).value) else None
    case ReleaseReplies => RedeemedRecord(m, w.release.key, w.pays[w.release.pay].state.txid)
    case _ => None
  }

  function After(m: map<Outpoint, MintRecord>, written: Option<Written>): map<Outpoint, MintRecord> {
    if written.None? then m else m[written.value.key := written.value.rec]
  }

  lemma WritesMints(w: World, l: Step)
    requires Enabled(w, l) && !l.CrashAndReload?
    ensures Next(w, l).store.db.mints == After(w.store.db.mints, Writes(w, l))
  {
    hide Enabled, Next, Writes;
    match l
    case ClaimKey(_) => ClaimWrites(w, l);
    case EndScan(_, _) => ScanWrites(w, l);
    case SignerReplies(_) => ReplyWrites(w, l);
    case ReceiptReturned(_, _, _, _) => BindWrites(w, l);
    case HistoryArrives(_) => HistoryWrites(w, l);
    case ReleaseReplies => PaymentWrites(w, l);
    case _ => WritesNothing(w, l);
  }

  lemma ClaimWrites(w: World, l: Step)
    requires Enabled(w, l) && l.ClaimKey?
    ensures Next(w, l).store.db.mints == After(w.store.db.mints, Writes(w, l))
  {
  }

  lemma ScannedMints(cfg: Config, s: StoreState, j: Job, r: Scan.ScanResult)
    requires HasRecord(s.db, j)
    ensures ScannedStore(cfg, s, j, r).db.mints == After(s.db.mints, ScanWritten(cfg, s.db, j, r))
  {
    hide NamesNoOther, ClaimOf;
  }

  lemma ScanWrites(w: World, l: Step)
    requires Enabled(w, l) && l.EndScan?
    ensures Next(w, l).store.db.mints == After(w.store.db.mints, Writes(w, l))
  {
    hide Scan.ScanContract, ScannedStore, ScanWritten, After;
    ScannedMints(w.cfg, w.store, l.job, l.result);
  }

  lemma ReplyWrites(w: World, l: Step)
    requires Enabled(w, l) && l.SignerReplies?
    ensures Next(w, l).store.db.mints == After(w.store.db.mints, Writes(w, l))
  {
  }

  lemma BindWrites(w: World, l: Step)
    requires Enabled(w, l) && l.ReceiptReturned?
    ensures Next(w, l).store.db.mints == After(w.store.db.mints, Writes(w, l))
  {
    hide ChoiceFor, Returns, Payout.IsListing;
  }

  lemma HistoryWrites(w: World, l: Step)
    requires Enabled(w, l) && l.HistoryArrives?
    ensures Next(w, l).store.db.mints == After(w.store.db.mints, Writes(w, l))
  {
    hide Already;
  }

  lemma PaymentWrites(w: World, l: Step)
    requires Enabled(w, l) && l.ReleaseReplies?
    ensures Next(w, l).store.db.mints == After(w.store.db.mints, Writes(w, l))
  {
  }

  predicate WritesMint(l: Step) {
    l.ClaimKey? || l.EndScan? || l.SignerReplies? || l.ReceiptReturned? || l.HistoryArrives? || l.ReleaseReplies?
  }

  lemma WritesNothing(w: World, l: Step)
    requires Enabled(w, l) && !l.CrashAndReload? && !WritesMint(l)
    ensures Writes(w, l).None? && Next(w, l).store.db.mints == w.store.db.mints
  {
    hide Enabled, Next;
    if MovesStages(l) || l.ConvertDone? {
      StageWritesNothing(w, l);
    } else if MovesRelease(l) {
      TaskWritesNothing(w, l);
    } else {
      RestWritesNothing(w, l);
    }
  }

  lemma StageWritesNothing(w: World, l: Step)
    requires Enabled(w, l) && !l.CrashAndReload? && !WritesMint(l) && (MovesStages(l) || l.ConvertDone?)
    ensures Next(w, l).store.db.mints == w.store.db.mints
  {
    hide ScriptOf, ClaimOf;
  }

  lemma TaskWritesNothing(w: World, l: Step)
    requires Enabled(w, l) && !l.CrashAndReload? && !WritesMint(l) && MovesRelease(l)
    ensures Next(w, l).store.db.mints == w.store.db.mints
  {
    hide ReleaseTarget, Payout.Choose, Disk, Recovers, Already, Comment;
  }

  lemma RestWritesNothing(w: World, l: Step)
    requires Enabled(w, l) && !WritesMint(l) && !MovesStages(l) && !MovesRelease(l) && !l.ConvertDone?
    ensures Next(w, l).store.db.mints == w.store.db.mints
  {
    hide BuiltFor, IsNews, NewCandidate, Eligible, Comment;
  }
}
