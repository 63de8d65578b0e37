/** Safety of the release leg.  Over every run bitcoin leaves at most once per redeem intent.
    Once per mint record needs two guards that the code does not have; under them it leaves
    for what the disk already holds as claimed for release, and for nothing else. */
module ReleaseSafety {
  import opened ByteStrings
  import opened Store
  import opened Gateway
  import opened MoneyLoop
  import opened StoreOrder
  import opened MintSafety
  import Payout
  import Scan

  function Phase(s: MintStatus): nat {
    match s case Minting => 0 case Minted => 1 case Redeeming => 2 case Redeemed => 3
  }

  /** The record has been claimed for release. */
  predicate Late(db: Db, k: Outpoint) {
    k in db.mints && Phase(db.mints[k].status) >= 2
  }

  // ---- the two guards ----

  /** finalizeMint runs: the signer's answer, or the scan's, makes a mint record minted. */
  predicate Finalizes(w: World, l: Step) {
    && (l.SignerReplies? || (&& l.EndScan? && HasRecord(w.store.db, l.job)
                             && Recovers(w.cfg, w.store.db, l.job, l.result)))
    && l.job.leg.MintLeg?
  }

  /** The first guard: an answer is not applied to a record already claimed for release. */
  predicate Timely(w: World, l: Step) {
    Finalizes(w, l) ==> !Late(w.store.db, l.job.key)
  }

  /** The wallet's history shows no payment, so the wallet is asked for one. */
  predicate Asks(w: World, l: Step) {
    l.HistoryArrives? && w.release.Checking? && l.upTo <= |w.wallet| && Already(w, l.upTo).None?
  }

  /** The second: the wallet is asked only for a release claim that is on disk. */
  predicate ClaimSaved(w: World, l: Step) {
    Asks(w, l) ==> Late(Disk(w.store), w.release.key)
  }

  ghost predicate IsTimelyRun(ws: seq<World>, ls: seq<Step>) {
    IsRun(ws, ls) && forall i :: 0 <= i < |ls| ==> Timely(ws[i], ls[i])
  }

  ghost predicate IsGuardedRun(ws: seq<World>, ls: seq<Step>) {
    IsTimelyRun(ws, ls) && forall i :: 0 <= i < |ls| ==> ClaimSaved(ws[i], ls[i])
  }

  // ---- payments, over every run ----

  predicate OneLivePay(pays: seq<PayCall>) {
    forall p, q :: 0 <= p < q < |pays| && pays[p].intent == pays[q].intent ==>
                     pays[p].state.Refused? || pays[q].state.Refused?
  }

  function EntryOf(p: PayCall): WalletEntry
    requires p.state.Sent?
  {
    WalletEntry(true, Comment(p.intent), p.state.txid)
  }

  ghost predicate InWallet(wallet: seq<WalletEntry>, pays: seq<PayCall>) {
    forall p :: 0 <= p < |pays| && pays[p].state.Sent? ==> EntryOf(pays[p]) in wallet
  }

  /** While the history is on its way, no payment of the intent is open, and those made were
      made before it was asked for. */
  predicate Settled(pays: seq<PayCall>, wallet: seq<WalletEntry>, id: IntentId) {
    forall p :: 0 <= p < |pays| && pays[p].intent == id ==>
                  && !pays[p].state.Unanswered?
                  && (pays[p].state.Sent? ==> EntryOf(pays[p]) in wallet)
  }

  predicate CheckingSettled(w: World) {
    w.release.Checking? ==>
      w.release.seen <= |w.wallet| && Settled(w.pays, w.wallet[..w.release.seen], w.release.target.intent)
  }

  ghost predicate PayInv(w: World) {
    OneLivePay(w.pays) && InWallet(w.wallet, w.pays) && CheckingSettled(w)
  }

  /** What was paid before the history was asked for is in it. */
  lemma PaidIsShown(w: World, l: Step, p: nat)
    requires CheckingSettled(w) && Enabled(w, l) && Assumed(w, l) && l.HistoryArrives?
    requires p < |w.pays| && w.pays[p].intent == w.release.target.intent && w.pays[p].state.Sent?
    ensures EntryOf(w.pays[p]) in History(w, l.upTo) && IsRelease(EntryOf(w.pays[p]), w.release.target.intent)
  {
    hide Recent;
    var seen, shown := w.wallet[..w.release.seen], w.wallet[..l.upTo];
    assert seen == shown[..w.release.seen];
    assert EntryOf(w.pays[p]) in seen && EntryOf(w.pays[p]) in shown;
  }

  /** An empty history means that every request for the intent was refused. */
  lemma AllRefusedBefore(w: World, l: Step)
    requires PayInv(w) && Enabled(w, l) && Assumed(w, l) && Asks(w, l)
    ensures forall p :: 0 <= p < |w.pays| && w.pays[p].intent == w.release.target.intent ==> w.pays[p].state.Refused?
  {
    hide OneLivePay, InWallet, History, Assumed;
    forall p | 0 <= p < |w.pays| && w.pays[p].intent == w.release.target.intent
      ensures w.pays[p].state.Refused?
    {
      if w.pays[p].state.Sent? {
        PaidIsShown(w, l, p);
      }
    }
  }

  predicate MovesPays(w: World, l: Step) {
    Asks(w, l) || l.WalletSends? || l.WalletRefuses?
  }

  lemma PaysFrame(w: World, l: Step)
    requires Enabled(w, l) && !MovesPays(w, l)
    ensures Next(w, l).pays == w.pays && w.wallet <= Next(w, l).wallet
  {
    if l.HistoryArrives? {
      hide FirstRelease, RedeemedStore, Recent;
    } else if l.WalletGrows? {
    } else {
      hide Enabled, Next, Asks;
      Frame(w, l);
    }
  }

  /** The release task looks at the history only after it has begun a release. */
  lemma CheckingBegins(w: World, l: Step)
    requires Enabled(w, l) && MovesRelease(l) && Next(w, l).release.Checking?
    ensures l.BeginRelease? && Next(w, l).wallet == w.wallet && Next(w, l).release.seen == |w.wallet|
    ensures ReleaseTarget(w.store.db, l.key) == Some(Next(w, l).release.target) && Next(w, l).release.key == l.key
    ensures Next(w, l).store == w.store
  {
    hide Enabled, Next, ReleaseTarget;
    if WritesRelease(l) {
      WritingDoesNotCheck(w, l);
    } else {
      OnlyBeginChecks(w, l);
    }
  }

  lemma WritingDoesNotCheck(w: World, l: Step)
    requires Enabled(w, l) && WritesRelease(l)
    ensures !Next(w, l).release.Checking?
  {
    hide Already, RedeemedStore, IntentStore, BoundStore, MayBind, ChoiceFor;
  }

  lemma OnlyBeginChecks(w: World, l: Step)
    requires Enabled(w, l) && MovesRelease(l) && !WritesRelease(l) && Next(w, l).release.Checking?
    ensures l.BeginRelease?
    ensures Next(w, l) == w.(release := Checking(l.key, ReleaseTarget(w.store.db, l.key).value, |w.wallet|))
    ensures ReleaseTarget(w.store.db, l.key).Some?
  {
    hide ReleaseTarget, NoteStore, Loaded, Disk;
  }

  lemma CheckingStep(w: World, l: Step)
    requires PayInv(w) && Enabled(w, l) && Assumed(w, l) && !MovesPays(w, l)
    ensures CheckingSettled(Next(w, l))
  {
    hide Enabled, Next, Assumed, OneLivePay;
    var w' := Next(w, l);
    PaysFrame(w, l);
    if w'.release.Checking? {
      if MovesRelease(l) {
        CheckingBegins(w, l);
        assert NoneOpen(w.pays, w'.release.target.intent) by { BegunSettled(w, l); }
        assert w.wallet[..|w.wallet|] == w.wallet;
      } else {
        Frame(w, l);
        assert w'.wallet[..w.release.seen] == w.wallet[..w.release.seen];
      }
    }
  }

  lemma BegunSettled(w: World, l: Step)
    requires Enabled(w, l) && Assumed(w, l) && l.BeginRelease?
    ensures NoneOpen(w.pays, ReleaseTarget(w.store.db, l.key).value.intent)
  {
  }

  /** The request that the wallet gets. */
  function Asked(w: World): PayCall
    requires w.release.Checking? && w.release.key in w.store.db.mints
  {
    PayCall(w.release.key, w.release.target.intent, w.release.target.address, w.store.db.mints[w.release.key].sats,
            Unanswered)
  }

  lemma AskedPay(w: World, l: Step)
    requires Enabled(w, l) && Asks(w, l)
    ensures w.release.Checking? && w.release.key in w.store.db.mints
    ensures Next(w, l) == w.(pays := w.pays + [Asked(w)], release := Paying(w.release.key, |w.pays|))
  {
    hide Already;
  }

  lemma AskStep(w: World, l: Step)
    requires PayInv(w) && Enabled(w, l) && Assumed(w, l) && Asks(w, l)
    ensures PayInv(Next(w, l))
  {
    hide Enabled, Next, Asks, Assumed, Settled;
    AskedPay(w, l);
    AllRefusedBefore(w, l);
  }

  lemma WalletStep(w: World, l: Step)
    requires PayInv(w) && Enabled(w, l) && (l.WalletSends? || l.WalletRefuses?)
    ensures PayInv(Next(w, l))
  {
    hide Comment;
    var w' := Next(w, l);
    if w.release.Checking? {
      assert w'.wallet[..w.release.seen] == w.wallet[..w.release.seen];
    }
  }

  lemma NextPayInv(w: World, l: Step)
    requires PayInv(w) && Enabled(w, l) && Assumed(w, l)
    ensures PayInv(Next(w, l))
  {
    hide Enabled, Next, Assumed, OneLivePay, CheckingSettled, Asks;
    if Asks(w, l) {
      AskStep(w, l);
    } else if l.WalletSends? || l.WalletRefuses? {
      WalletStep(w, l);
    } else {
      PaysFrame(w, l);
      CheckingStep(w, l);
    }
  }

  lemma {:induction false} RunPayInv(ws: seq<World>, ls: seq<Step>, i: nat)
    requires IsRun(ws, ls) && i < |ws|
    ensures PayInv(ws[i])
  {
    hide PayInv, Enabled, Assumed, Next;
    if i == 0 {
      NoPaysYet(ws[0]);
    } else {
      RunPayInv(ws, ls, i - 1);
      assert ws[i] == Next(ws[i - 1], ls[i - 1]);
      NextPayInv(ws[i - 1], ls[i - 1]);
    }
  }

  lemma NoPaysYet(w: World)
    requires Initial(w)
    ensures PayInv(w)
  {
  }

  /** Two payments for one redeem intent are the same payment. */
  lemma PaidOncePerIntent(ws: seq<World>, ls: seq<Step>, i: nat, p: nat, q: nat)
    requires IsRun(ws, ls) && i < |ws|
    requires p < |ws[i].pays| && q < |ws[i].pays| && ws[i].pays[p].intent == ws[i].pays[q].intent
    requires ws[i].pays[p].state.Sent? && ws[i].pays[q].state.Sent?
    ensures p == q
  {
    hide Enabled, Assumed, Next;
    RunPayInv(ws, ls, i);
  }

  predicate SamePayment(a: PayCall, b: PayCall) {
    && b.key == a.key && b.intent == a.intent && b.sats == a.sats && b.address == a.address
    && (a.state.Sent? ==> b == a)
  }

  lemma PaymentsStay(w: World, l: Step, p: nat)
    requires Enabled(w, l) && p < |w.pays|
    ensures p < |Next(w, l).pays| && SamePayment(w.pays[p], Next(w, l).pays[p])
  {
    hide Enabled, Next;
    if l.HistoryArrives? {
      AskKeepsPays(w, l);
    } else if MovesWallet(l) {
      WalletKeepsPay(w, l, p);
    } else {
      Frame(w, l);
    }
  }

  lemma AskKeepsPays(w: World, l: Step)
    requires Enabled(w, l) && l.HistoryArrives?
    ensures w.pays <= Next(w, l).pays
  {
    hide Already, RedeemedStore;
  }

  lemma WalletKeepsPay(w: World, l: Step, p: nat)
    requires Enabled(w, l) && MovesWallet(l) && p < |w.pays|
    ensures p < |Next(w, l).pays| && SamePayment(w.pays[p], Next(w, l).pays[p])
  {
    hide Comment;
  }

  /** No payment is forgotten or rewritten, so what holds of the payments of one moment holds
      of every payment made up to then. */
  lemma {:induction false} PaymentsPersist(ws: seq<World>, ls: seq<Step>, i: nat, k: nat, p: nat)
    requires IsRun(ws, ls) && i <= k < |ws| && p < |ws[i].pays|
    ensures p < |ws[k].pays| && (ws[i].pays[p].state.Sent? ==> ws[k].pays[p] == ws[i].pays[p])
    decreases k
  {
    hide Enabled, Assumed, Next;
    if i < k {
      PaymentsPersist(ws, ls, i, k - 1, p);
      assert ws[k] == Next(ws[k - 1], ls[k - 1]);
      PaymentsStay(ws[k - 1], ls[k - 1], p);
    }
  }

  // ---- statuses, over every timely run ----

  /** Statuses only go forward, and a record claimed for release keeps its intent. */
  ghost predicate RedeemKept(a: Db, b: Db) {
    forall k :: k in a.mints ==>
                  && k in b.mints && Phase(a.mints[k].status) <= Phase(b.mints[k].status)
                  && (Phase(a.mints[k].status) >= 2 ==> b.mints[k].redeemIntentId == a.mints[k].redeemIntentId)
  }

  predicate LateIsBound(db: Db) {
    forall k :: k in db.mints && Phase(db.mints[k].status) >= 2 ==> db.mints[k].redeemIntentId.Some?
  }

  ghost predicate RedeemOrdered(s: StoreState) {
    && (forall i, j :: 0 <= i <= j <= |s.log| + 1 ==> RedeemKept(Snap(s, i), Snap(s, j)))
    && (forall i :: 0 <= i <= |s.log| + 1 ==> LateIsBound(Snap(s, i)))
  }

  predicate IsReleasing(db: Db, key: Outpoint) {
    key in db.mints && db.mints[key].status == Redeeming
  }

  /** The release task works on a record that is redeeming, for the intent bound to it. */
  predicate TaskOk(db: Db, pays: seq<PayCall>, release: ReleaseStage) {
    match release
    case Idle => true
    case Noting(key, id, status, ticket) => status == ReceiptReceived ==> IsReleasing(db, key)
    case Ready(key) => IsReleasing(db, key)
    case Checking(key, target, seen) =>
      && IsReleasing(db, key) && db.mints[key].redeemIntentId == Some(target.intent)
      && target.intent in db.intents && db.intents[target.intent].btcAddress == Some(target.address)
    case Paying(key, pay) => IsReleasing(db, key) && pay < |pays| && pays[pay].key == key
  }

  ghost predicate TimelyInv(w: World) {
    RedeemOrdered(w.store) && TaskOk(w.store.db, w.pays, w.release)
  }

  // ---- what one step does to a record ----

  /** The release task's own payment is found or confirmed. */
  predicate Redeems(w: World, l: Step, k: Outpoint) {
    && ((w.release.Checking? && l.HistoryArrives?) || (w.release.Paying? && l.ReleaseReplies?))
    && w.release.key == k
  }

  predicate StatusMove(w: World, l: Step, k: Outpoint, a: MintRecord, b: MintRecord) {
    || (b.status == a.status && b.redeemIntentId == a.redeemIntentId)
    || (a.status == Minting && b.status == Minted && Finalizes(w, l) && l.job.key == k)
    || (a.status == Minted && b.status == Redeeming && b.redeemIntentId.Some?)
    || (a.status == Redeeming && b.status == Redeemed && b.redeemIntentId == a.redeemIntentId && Redeems(w, l, k))
  }

  ghost predicate StatusMoves(w: World, l: Step, a: Db, b: Db) {
    && (forall k :: k in a.mints ==> k in b.mints && StatusMove(w, l, k, a.mints[k], b.mints[k]))
    && (forall k :: k in b.mints && k !in a.mints ==> b.mints[k].status == Minting)
  }

  /** What is written into a known record moves its status as it should. */
  lemma WrittenMoves(w: World, l: Step, rec: MintRecord)
    requires Enabled(w, l) && Writes(w, l).Some? && Writes(w, l).value.key in w.store.db.mints
    requires Timely(w, l) && TaskOk(w.store.db, w.pays, w.release) && rec == w.store.db.mints[Writes(w, l).value.key]
    ensures StatusMove(w, l, Writes(w, l).value.key, rec, Writes(w, l).value.rec)
  {
    hide Scan.ScanContract, NamesNoOther, ScriptOf, ChoiceFor, Payout.IsListing, Returns, Already;
  }

  lemma ClaimedMoves(w: World, l: Step)
    requires Enabled(w, l) && Writes(w, l).Some? && Writes(w, l).value.key !in w.store.db.mints
    requires CandidatesOk(w.cfg, w.store.db, w.claiming, |w.chain.blocks|)
    ensures Writes(w, l).value.rec.status == Minting
  {
    hide MintSound, ConvertSound, Scan.ScanContract, ChoiceFor, Already, Returns, Payout.IsListing;
    if l.ClaimKey? {
      assert CandidateOk(w.cfg, w.store.db, l.candidate, |w.chain.blocks|);
    }
  }

  lemma StatusStep(w: World, l: Step)
    requires Enabled(w, l) && !l.CrashAndReload? && Timely(w, l)
    requires TaskOk(w.store.db, w.pays, w.release)
    requires CandidatesOk(w.cfg, w.store.db, w.claiming, |w.chain.blocks|)
    ensures StatusMoves(w, l, w.store.db, Next(w, l).store.db)
  {
    hide Enabled, Next, Writes, TaskOk, CandidatesOk, Timely, StatusMove;
    WritesMints(w, l);
    forall k ensures k in w.store.db.mints ==>
                       StatusMove(w, l, k, w.store.db.mints[k], After(w.store.db.mints, Writes(w, l))[k])
    {
      if k in w.store.db.mints {
        if Writes(w, l).Some? && Writes(w, l).value.key == k {
          WrittenMoves(w, l, w.store.db.mints[k]);
        } else {
          NoMove(w, l, k, w.store.db.mints[k]);
        }
      }
    }
    if Writes(w, l).Some? && Writes(w, l).value.key !in w.store.db.mints {
      ClaimedMoves(w, l);
    }
  }

  lemma NoMove(w: World, l: Step, k: Outpoint, rec: MintRecord)
    ensures StatusMove(w, l, k, rec, rec)
  {
  }

  lemma MovesKeepRedeem(w: World, l: Step, a: Db, b: Db)
    requires StatusMoves(w, l, a, b) && LateIsBound(a)
    ensures RedeemKept(a, b) && LateIsBound(b)
  {
  }

  // ---- the store ----

  lemma RedeemKeptReflexive(a: Db)
    ensures RedeemKept(a, a)
  {
  }

  lemma RedeemKeptTransitive(a: Db, b: Db, c: Db)
    requires RedeemKept(a, b) && RedeemKept(b, c)
    ensures RedeemKept(a, c)
  {
  }

  lemma RedeemMoved(s: StoreState, s': StoreState)
    requires RedeemOrdered(s) && (s' == s || s' == Persist(s.(db := s'.db)))
    requires RedeemKept(s.db, s'.db) && LateIsBound(s'.db) && s.written <= |s.log|
    ensures RedeemOrdered(s') && Disk(s') == Disk(s)
  {
    hide RedeemKept, LateIsBound;
    if s' != s {
      forall i | 0 <= i <= |s'.log| + 1
        ensures Snap(s', i) == if i <= |s.log| then Snap(s, i) else s'.db
      {
      }
      RedeemKeptReflexive(s'.db);
      assert Snap(s, |s.log| + 1) == s.db;
      forall i, j | 0 <= i <= j <= |s'.log| + 1
        ensures RedeemKept(Snap(s', i), Snap(s', j))
      {
        if i <= |s.log| < j {
          RedeemKeptTransitive(Snap(s, i), s.db, s'.db);
        }
      }
    }
  }

  /** The disk's records are behind the memory's. */
  lemma DiskBehind(s: StoreState)
    requires RedeemOrdered(s) && s.written <= |s.log|
    ensures RedeemKept(Disk(s), s.db) && LateIsBound(s.db)
  {
    hide RedeemKept, LateIsBound;
    assert Snap(s, |s.log| + 1) == s.db;
  }

  lemma DiskKeeps(cfg: Config, s: StoreState, n: nat)
    requires StoreInv(cfg, s, n)
    ensures Keeps(cfg, Disk(s), s.db) && Sound(cfg, Disk(s))
  {
    assert Snap(s, |s.log| + 1) == s.db;
  }

  lemma StoreStep(w: World, l: Step)
    requires Inv(w) && TimelyInv(w) && Enabled(w, l) && Timely(w, l) && !TouchesDisk(l)
    ensures RedeemOrdered(Next(w, l).store) && Disk(Next(w, l).store) == Disk(w.store)
    ensures StatusMoves(w, l, w.store.db, Next(w, l).store.db)
  {
    hide Enabled, Next, StatusMoves, RedeemKept, LateIsBound, Ordered, Sound, HeightsBelow, CandidatesOk, CallsOk,
         OneLive, StagesOk, TaskOk, Timely;
    var s, s' := w.store, Next(w, l).store;
    StepPersists(w, l);
    StatusStep(w, l);
    DiskBehind(s);
    MovesKeepRedeem(w, l, s.db, s'.db);
    RedeemMoved(s, s');
  }

  lemma DiskNext(w: World, l: Step)
    requires Inv(w) && TimelyInv(w) && Enabled(w, l) && TouchesDisk(l)
    ensures RedeemOrdered(Next(w, l).store) && RedeemKept(Disk(w.store), Disk(Next(w, l).store))
  {
    hide Ordered, Sound, HeightsBelow, CandidatesOk, CallsOk, OneLive, StagesOk, RedeemKept, LateIsBound;
    var s, s' := w.store, Next(w, l).store;
    RedeemKeptReflexive(Disk(s));
    if !l.CrashAndReload? {
      forall i | 0 <= i <= |s.log| + 1 ensures Snap(s', i) == Snap(s, i) {
      }
    }
  }

  // ---- the release task ----

  lemma StaysReleasing(w: World, l: Step, a: Db, b: Db, k: Outpoint)
    requires StatusMoves(w, l, a, b) && IsReleasing(a, k) && !Redeems(w, l, k)
    ensures IsReleasing(b, k) && b.mints[k].redeemIntentId == a.mints[k].redeemIntentId
  {
    assert StatusMove(w, l, k, a.mints[k], b.mints[k]);
  }

  lemma IntentStays(w: World, l: Step, id: IntentId)
    requires Inv(w) && Enabled(w, l) && !TouchesDisk(l) && id in w.store.db.intents
    ensures id in Next(w, l).store.db.intents
        && IntentKept(w.store.db.intents[id], Next(w, l).store.db.intents[id])
  {
    hide Enabled, Next, CallsOk, OneLive, StagesOk, Sound, HeightsBelow, Ordered, CandidateOk, StoreInv, Moved;
    StepMoves(w, l, |w.chain.blocks|);
    MovedKeepsOrder(w.cfg, w.store, Next(w, l).store, |w.chain.blocks|);
  }

  /** A step that leaves the release alone leaves its record redeeming. */
  lemma TaskWaits(w: World, l: Step)
    requires Inv(w) && TimelyInv(w) && Enabled(w, l) && !TouchesDisk(l) && !MovesRelease(l)
    requires StatusMoves(w, l, w.store.db, Next(w, l).store.db)
    ensures TaskOk(Next(w, l).store.db, Next(w, l).pays, Next(w, l).release)
  {
    hide Inv, RedeemOrdered, StatusMoves, Enabled, Next;
    Frame(w, l);
    var db, db' := w.store.db, Next(w, l).store.db;
    match w.release
    case Idle =>
    case Noting(key, id, status, ticket) =>
      if status == ReceiptReceived {
        StaysReleasing(w, l, db, db', key);
      }
    case Ready(key) => StaysReleasing(w, l, db, db', key);
    case Checking(key, target, seen) =>
      StaysReleasing(w, l, db, db', key);
      IntentStays(w, l, target.intent);
    case Paying(key, pay) =>
      StaysReleasing(w, l, db, db', key);
      PaymentsStay(w, l, pay);
  }

  lemma TaskMoves(w: World, l: Step)
    requires TaskOk(w.store.db, w.pays, w.release) && Enabled(w, l) && MovesRelease(l)
    ensures TaskOk(Next(w, l).store.db, Next(w, l).pays, Next(w, l).release)
  {
    hide Enabled, Next, TaskOk;
    if l.ReceiptReturned? {
      TaskBinds(w, l);
    } else if l.HistoryArrives? {
      TaskChecks(w, l);
    } else if l.BeginRelease? {
      TaskBegins(w, l);
    } else {
      TaskRests(w, l);
    }
  }

  lemma TaskChecks(w: World, l: Step)
    requires TaskOk(w.store.db, w.pays, w.release) && Enabled(w, l) && l.HistoryArrives?
    ensures TaskOk(Next(w, l).store.db, Next(w, l).pays, Next(w, l).release)
  {
    hide Already, RedeemedStore;
  }

  lemma TaskBegins(w: World, l: Step)
    requires TaskOk(w.store.db, w.pays, w.release) && Enabled(w, l) && l.BeginRelease?
    ensures TaskOk(Next(w, l).store.db, Next(w, l).pays, Next(w, l).release)
  {
  }

  lemma TaskRests(w: World, l: Step)
    requires TaskOk(w.store.db, w.pays, w.release) && Enabled(w, l) && MovesRelease(l)
    requires !l.ReceiptReturned? && !l.HistoryArrives? && !l.BeginRelease?
    ensures TaskOk(Next(w, l).store.db, Next(w, l).pays, Next(w, l).release)
  {
    hide RedeemedStore, NoteStore, Loaded, Disk;
  }

  lemma TaskBinds(w: World, l: Step)
    requires Enabled(w, l) && l.ReceiptReturned?
    ensures TaskOk(Next(w, l).store.db, Next(w, l).pays, Next(w, l).release)
  {
    hide ChoiceFor, Payout.IsListing, Returns;
  }

  lemma DiskLeavesTheTask(w: World, l: Step)
    requires TaskOk(w.store.db, w.pays, w.release) && Enabled(w, l) && TouchesDisk(l)
    ensures TaskOk(Next(w, l).store.db, Next(w, l).pays, Next(w, l).release)
  {
  }

  lemma NextTimelyInv(w: World, l: Step)
    requires Inv(w) && TimelyInv(w) && Enabled(w, l) && Assumed(w, l) && Timely(w, l)
    ensures TimelyInv(Next(w, l)) && RedeemKept(Disk(w.store), Disk(Next(w, l).store))
  {
    hide Inv, Enabled, Next, Assumed, Timely, RedeemOrdered, TaskOk, StatusMoves, RedeemKept, Snap;
    if TouchesDisk(l) {
      DiskNext(w, l);
      DiskLeavesTheTask(w, l);
    } else {
      StoreStep(w, l);
      RedeemKeptReflexive(Disk(w.store));
      if MovesRelease(l) {
        TaskMoves(w, l);
      } else {
        TaskWaits(w, l);
      }
    }
  }

  lemma InitialTimelyInv(w: World)
    requires Initial(w)
    ensures TimelyInv(w)
  {
  }

  lemma {:induction false} TimelyRunInv(ws: seq<World>, ls: seq<Step>, i: nat)
    requires IsTimelyRun(ws, ls) && i < |ws|
    ensures Inv(ws[i]) && TimelyInv(ws[i])
  {
    hide Inv, TimelyInv, Enabled, Assumed, Timely, Next;
    RunInv(ws, ls, i);
    if i == 0 {
      InitialTimelyInv(ws[0]);
    } else {
      TimelyRunInv(ws, ls, i - 1);
      assert Timely(ws[i - 1], ls[i - 1]);
      assert ws[i] == Next(ws[i - 1], ls[i - 1]);
      NextTimelyInv(ws[i - 1], ls[i - 1]);
    }
  }

  /** On disk a receipt's status never goes back and a claimed release keeps its intent, over
      any stretch of a timely run, crashes and failed writes included. */
  lemma {:induction false} StatusMovesForward(ws: seq<World>, ls: seq<Step>, i: nat, k: nat)
    requires IsTimelyRun(ws, ls) && i <= k < |ws|
    ensures RedeemKept(Disk(ws[i].store), Disk(ws[k].store))
    decreases k
  {
    hide Enabled, Assumed, Timely, Next, Inv, TimelyInv, RedeemKept, Snap;
    RedeemKeptReflexive(Disk(ws[i].store));
    if i < k {
      StatusMovesForward(ws, ls, i, k - 1);
      TimelyRunInv(ws, ls, k - 1);
      assert ws[k] == Next(ws[k - 1], ls[k - 1]);
      NextTimelyInv(ws[k - 1], ls[k - 1]);
      RedeemKeptTransitive(Disk(ws[i].store), Disk(ws[k - 1].store), Disk(ws[k].store));
    }
  }

  // ---- where the first guard is kept ----

  /** The first attempt after a claim meets a record that is still being minted.  All other mint
      attempts do by the code's own check. */
  predicate Prompt(w: World, l: Step) {
    l.BeginAttempt? && l.first && l.job.leg.MintLeg? ==>
      l.job.key in w.store.db.mints && w.store.db.mints[l.job.key].status == Minting
  }

  ghost predicate IsPromptRun(ws: seq<World>, ls: seq<Step>) {
    IsRun(ws, ls) && forall i :: 0 <= i < |ls| ==> Prompt(ws[i], ls[i])
  }

  /** A mint attempt on its way works on a record that is being minted. */
  predicate AttemptsFresh(db: Db, attempts: map<Job, Stage>) {
    forall j :: j in attempts && j.leg.MintLeg? && !attempts[j].Finishing? ==>
                  j.key in db.mints && db.mints[j.key].status == Minting
  }

  lemma FreshIsTimely(w: World, l: Step)
    requires Enabled(w, l) && AttemptsFresh(w.store.db, w.attempts)
    ensures Timely(w, l)
  {
    hide Recovers, Scan.ScanContract;
  }

  /** An attempt on its way was so before, or has just begun; an answer to it would end it. */
  lemma AttemptsFrame(w: World, l: Step, j: Job)
    requires Enabled(w, l) && j in Next(w, l).attempts && !Next(w, l).attempts[j].Finishing?
    ensures (j in w.attempts && !w.attempts[j].Finishing?) || (l.BeginAttempt? && l.job == j)
    ensures !(Finalizes(w, l) && l.job == j)
  {
    hide Enabled, Next, Recovers;
    if l.EndScan? || l.SignerReplies? {
      AnswerFrame(w, l, j);
    } else if MovesStages(l) {
      StagesFrame(w, l, j);
    } else {
      Frame(w, l);
    }
  }

  lemma AnswerFrame(w: World, l: Step, j: Job)
    requires Enabled(w, l) && (l.EndScan? || l.SignerReplies?)
    requires j in Next(w, l).attempts && !Next(w, l).attempts[j].Finishing?
    ensures j in w.attempts && !w.attempts[j].Finishing? && !(Finalizes(w, l) && l.job == j)
  {
    hide ScannedStore, SentStore, Scan.ScanContract, ClaimOf, ScriptOf, NamesNoOther;
  }

  lemma StagesFrame(w: World, l: Step, j: Job)
    requires Enabled(w, l) && MovesStages(l) && !l.EndScan? && !l.SignerReplies?
    requires j in Next(w, l).attempts && !Next(w, l).attempts[j].Finishing?
    ensures (j in w.attempts && !w.attempts[j].Finishing?) || (l.BeginAttempt? && l.job == j)
  {
    hide NoteStore, ClaimOf, ScriptOf, Disk, Loaded;
  }

  lemma BegunFresh(w: World, l: Step)
    requires Enabled(w, l) && Prompt(w, l) && l.BeginAttempt? && l.job.leg.MintLeg?
    ensures l.job.key in w.store.db.mints && w.store.db.mints[l.job.key].status == Minting
  {
  }

  lemma FreshStep(w: World, l: Step)
    requires Inv(w) && TimelyInv(w) && AttemptsFresh(w.store.db, w.attempts)
    requires Enabled(w, l) && Prompt(w, l) && !TouchesDisk(l)
    ensures AttemptsFresh(Next(w, l).store.db, Next(w, l).attempts)
  {
    hide Inv, TimelyInv, Enabled, Next, Prompt, StatusMoves, Finalizes, Timely;
    var w' := Next(w, l);
    FreshIsTimely(w, l);
    StoreStep(w, l);
    forall j | j in w'.attempts && j.leg.MintLeg? && !w'.attempts[j].Finishing?
      ensures j.key in w'.store.db.mints && w'.store.db.mints[j.key].status == Minting
    {
      AttemptsFrame(w, l, j);
      if l.BeginAttempt? && l.job == j {
        BegunFresh(w, l);
      }
      StaysMinting(w, l, w.store.db, w'.store.db, j);
    }
  }

  lemma StaysMinting(w: World, l: Step, a: Db, b: Db, j: Job)
    requires StatusMoves(w, l, a, b) && j.leg.MintLeg? && j.key in a.mints && a.mints[j.key].status == Minting
    requires !(Finalizes(w, l) && l.job == j)
    ensures j.key in b.mints && b.mints[j.key].status == Minting
  {
    hide Recovers;
    assert StatusMove(w, l, j.key, a.mints[j.key], b.mints[j.key]);
  }

  lemma DiskKeepsFresh(w: World, l: Step)
    requires Enabled(w, l) && TouchesDisk(l) && AttemptsFresh(w.store.db, w.attempts)
    ensures AttemptsFresh(Next(w, l).store.db, Next(w, l).attempts)
  {
  }

  lemma {:induction false} PromptRunInv(ws: seq<World>, ls: seq<Step>, i: nat)
    requires IsPromptRun(ws, ls) && i < |ws|
    ensures Inv(ws[i]) && TimelyInv(ws[i]) && AttemptsFresh(ws[i].store.db, ws[i].attempts)
  {
    hide Inv, TimelyInv, AttemptsFresh, Enabled, Assumed, Prompt, Timely, Next;
    RunInv(ws, ls, i);
    if i == 0 {
      InitialTimelyInv(ws[0]);
      NoAttempts(ws[0]);
    } else {
      PromptRunInv(ws, ls, i - 1);
      var w, l := ws[i - 1], ls[i - 1];
      assert Prompt(w, l);
      assert ws[i] == Next(w, l);
      FreshIsTimely(w, l);
      NextTimelyInv(w, l);
      if TouchesDisk(l) {
        DiskKeepsFresh(w, l);
      } else {
        FreshStep(w, l);
      }
    }
  }

  lemma NoAttempts(w: World)
    requires Initial(w)
    ensures AttemptsFresh(w.store.db, w.attempts)
  {
  }

  /** If no first attempt meets a record that is already minted, the first guard is kept. */
  lemma PromptIsTimely(ws: seq<World>, ls: seq<Step>)
    requires IsPromptRun(ws, ls)
    ensures IsTimelyRun(ws, ls)
  {
    hide Inv, TimelyInv, AttemptsFresh, Assumed, Prompt, Timely, Next, Enabled;
    forall i | 0 <= i < |ls| ensures Timely(ws[i], ls[i]) {
      PromptRunInv(ws, ls, i);
      FreshIsTimely(ws[i], ls[i]);
    }
  }

  // ---- records, over every guarded run ----

  /** A payment request was made for a record that is claimed for release on disk: for its
      intent, to the payout address registered there, of exactly its sats. */
  predicate PayOk(disk: Db, p: PayCall) {
    && Late(disk, p.key)
    && disk.mints[p.key].redeemIntentId == Some(p.intent)
    && disk.mints[p.key].sats == p.sats
    && p.intent in disk.intents && disk.intents[p.intent].btcAddress == Some(p.address)
    && disk.intents[p.intent].ssqAddress == disk.mints[p.key].ssqAddress
  }

  ghost predicate Recorded(disk: Db, pays: seq<PayCall>) {
    forall p :: 0 <= p < |pays| ==> PayOk(disk, pays[p])
  }

  lemma PayKept(cfg: Config, a: Db, b: Db, p: PayCall)
    requires Keeps(cfg, a, b) && RedeemKept(a, b) && PayOk(a, p)
    ensures PayOk(b, p)
  {
    KeepsRecord(cfg, a, b, Job(MintLeg, p.key));
  }

  /** Only a record whose release claim is on disk is paid, and as the disk has it. */
  lemma NewPayOk(w: World, l: Step)
    requires Inv(w) && TimelyInv(w) && Enabled(w, l) && Asks(w, l) && ClaimSaved(w, l)
    ensures var key, target := w.release.key, w.release.target;
            PayOk(Disk(w.store), PayCall(key, target.intent, target.address, w.store.db.mints[key].sats, Unanswered))
  {
    hide CandidatesOk, CallsOk, OneLive, StagesOk, RedeemOrdered, Ordered, HeightsBelow, Already;
    var db, disk, key := w.store.db, Disk(w.store), w.release.key;
    DiskBehind(w.store);
    DiskKeeps(w.cfg, w.store, |w.chain.blocks|);
    assert disk.mints[key].redeemIntentId == db.mints[key].redeemIntentId == Some(w.release.target.intent);
    assert MintSound(w.cfg, disk, key, disk.mints[key]);
    assert IntentKept(disk.intents[w.release.target.intent], db.intents[w.release.target.intent]);
  }

  lemma PaysStep(w: World, l: Step)
    requires Inv(w) && TimelyInv(w) && Recorded(Disk(w.store), w.pays) && Enabled(w, l) && ClaimSaved(w, l)
    ensures Recorded(Disk(w.store), Next(w, l).pays)
  {
    hide Inv, TimelyInv, PayOk, Snap, Already, ClaimSaved;
    if Asks(w, l) {
      NewPayOk(w, l);
    } else if l.WalletSends? || l.WalletRefuses? {
      StateDoesNotMatter(Disk(w.store), w.pays[l.pay], Next(w, l).pays[l.pay]);
    } else {
      PaysFrame(w, l);
    }
  }

  lemma StateDoesNotMatter(disk: Db, p: PayCall, q: PayCall)
    requires PayOk(disk, p) && q == p.(state := q.state)
    ensures PayOk(disk, q)
  {
  }

  lemma NextRecorded(w: World, l: Step)
    requires Inv(w) && TimelyInv(w) && Recorded(Disk(w.store), w.pays)
    requires Enabled(w, l) && Assumed(w, l) && Timely(w, l) && ClaimSaved(w, l)
    ensures Recorded(Disk(Next(w, l).store), Next(w, l).pays)
  {
    hide Inv, TimelyInv, Enabled, Assumed, Timely, ClaimSaved, Next, PayOk, Keeps, RedeemKept, Snap;
    var w' := Next(w, l);
    PaysStep(w, l);
    NextTimelyInv(w, l);
    DiskStep(w, l);
    forall p | 0 <= p < |w'.pays| ensures PayOk(Disk(w'.store), w'.pays[p]) {
      PayKept(w.cfg, Disk(w.store), Disk(w'.store), w'.pays[p]);
    }
  }

  lemma {:induction false} GuardedRunInv(ws: seq<World>, ls: seq<Step>, i: nat)
    requires IsGuardedRun(ws, ls) && i < |ws|
    ensures Inv(ws[i]) && TimelyInv(ws[i]) && Recorded(Disk(ws[i].store), ws[i].pays)
  {
    hide Inv, TimelyInv, Recorded, Enabled, Assumed, Timely, ClaimSaved, Next, Snap;
    TimelyRunInv(ws, ls, i);
    if i == 0 {
      NothingRecorded(ws[0]);
    } else {
      GuardedRunInv(ws, ls, i - 1);
      assert Timely(ws[i - 1], ls[i - 1]) && ClaimSaved(ws[i - 1], ls[i - 1]);
      assert ws[i] == Next(ws[i - 1], ls[i - 1]);
      NextRecorded(ws[i - 1], ls[i - 1]);
    }
  }

  lemma NothingRecorded(w: World)
    requires Initial(w)
    ensures Recorded(Disk(w.store), w.pays)
  {
  }

  /** Two payments for one mint record are the same payment. */
  lemma PaidOncePerRecord(ws: seq<World>, ls: seq<Step>, i: nat, p: nat, q: nat)
    requires IsGuardedRun(ws, ls) && i < |ws|
    requires p < |ws[i].pays| && q < |ws[i].pays| && ws[i].pays[p].key == ws[i].pays[q].key
    requires ws[i].pays[p].state.Sent? && ws[i].pays[q].state.Sent?
    ensures p == q
  {
    hide Inv, TimelyInv, IsRun, Snap, Timely, ClaimSaved;
    GuardedRunInv(ws, ls, i);
    assert PayOk(Disk(ws[i].store), ws[i].pays[p]) && PayOk(Disk(ws[i].store), ws[i].pays[q]);
    PaidOncePerIntent(ws, ls, i, p, q);
  }

  /** A payment, even one only asked for, is of exactly the sats of a record that the disk
      already holds as claimed for release, to the payout address of the intent bound to it,
      which was registered for the receipt's own holder. */
  lemma PaidAsRecorded(ws: seq<World>, ls: seq<Step>, i: nat, p: nat)
    requires IsGuardedRun(ws, ls) && i < |ws| && p < |ws[i].pays|
    ensures PayOk(Disk(ws[i].store), ws[i].pays[p]) && PayOk(ws[i].store.db, ws[i].pays[p])
  {
    hide IsGuardedRun, CandidatesOk, CallsOk, OneLive, StagesOk, RedeemOrdered, TaskOk, Ordered, Sound, HeightsBelow,
         Keeps, Snap, PayOk;
    GuardedRunInv(ws, ls, i);
    var w := ws[i];
    DiskKeeps(w.cfg, w.store, |w.chain.blocks|);
    DiskBehind(w.store);
    PayKept(w.cfg, Disk(w.store), w.store.db, w.pays[p]);
  }
}
