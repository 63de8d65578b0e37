/** Where the books come from, over every run: what they say of deposits, mints, conversions,
    bindings and releases was brought about by a step of the run that says the same, crashes and
    reloads included. */
module Provenance {
  import opened ByteStrings
  import opened Store
  import opened Gateway
  import opened MoneyLoop
  import opened StoreOrder
  import opened MintSafety
  import opened ReleaseSafety
  import MintEvidence
  import Payout
  import Receipt
  import Scan

  /** The step brings it about in the memory. */
  ghost predicate Begins(ws: seq<World>, ls: seq<Step>, fact: Db -> bool, at: nat)
    requires at < |ls| < |ws|
  {
    && !ls[at].CrashAndReload? && Enabled(ws[at], ls[at]) && ws[at + 1] == Next(ws[at], ls[at])
    && !fact(ws[at].store.db) && fact(ws[at + 1].store.db)
  }

  /** What was not there at the first start began with a step; a reload only brings back what an
      earlier memory said. */
  lemma {:induction false} BeganWithAStep(ws: seq<World>, ls: seq<Step>, fact: Db -> bool, i: nat) returns (at: nat)
    requires IsRun(ws, ls) && i < |ws| && fact(ws[i].store.db) && !fact(EMPTY_DB)
    ensures at < i && |ws| == |ls| + 1 && Begins(ws, ls, fact, at)
    decreases i
  {
    hide Enabled, Assumed, Next, Disk;
    assert i > 0;
    var w, l := ws[i - 1], ls[i - 1];
    if fact(w.store.db) {
      at := BeganWithAStep(ws, ls, fact, i - 1);
    } else if l.CrashAndReload? {
      ReloadedMemory(w, l);
      DiskIsAnEarlierMemory(ws, ls, i - 1);
      var k :| 0 <= k <= i - 1 && Disk(w.store) == ws[k].store.db;
      at := BeganWithAStep(ws, ls, fact, k);
    } else {
      at := i - 1;
    }
  }

  lemma ReloadedMemory(w: World, l: Step)
    requires Enabled(w, l) && l.CrashAndReload?
    ensures Next(w, l).store.db == Disk(w.store)
  {
  }

  // ---- deposits ----

  function DepositSays(key: Outpoint, sats: nat, address: string, intentId: Option<IntentId>): Db -> bool {
    (db: Db) => key in db.deposits && db.deposits[key].sats == sats && db.deposits[key].address == address
                && db.deposits[key].intentId == intentId
  }

  function DepositIs(key: Outpoint, confidence: Confidence): Db -> bool {
    (db: Db) => key in db.deposits && db.deposits[key].confidence == confidence
  }

  /** What the step does to the deposits. */
  ghost predicate DepositsMove(w: World, l: Step, before: map<Outpoint, Deposit>, after: map<Outpoint, Deposit>) {
    match l
    case DepositEvent(key, sats, address, confidence, intentId) =>
      && key in after && after[key].confidence == confidence
      && (if key in before then after[key] == before[key].(confidence := confidence)
          else after[key].sats == sats && after[key].address == address && after[key].intentId == intentId)
      && (forall k :: k != key ==> (k in after <==> k in before) && (k in before ==> after[k] == before[k]))
    case HoldDeposit(key, reason) =>
      key in before && after == before[key := before[key].(held := Some(reason))]
    case _ => after == before
  }

  lemma DepositsStep(w: World, l: Step)
    requires Enabled(w, l) && !l.CrashAndReload?
    ensures DepositsMove(w, l, w.store.db.deposits, Next(w, l).store.db.deposits)
    ensures !MovesAttempts(l) ==> Next(w, l).store.db.converts == w.store.db.converts
  {
    hide Enabled, Next, DepositsMove;
    if MovesBooks(l) {
      BooksDeposits(w, l);
    } else if MovesReleases(l) {
      ReleasesDeposits(w, l);
    } else if MovesAttempts(l) {
      AttemptsDeposits(w, l);
    } else {
      RestDeposits(w, l);
    }
  }

  lemma BooksDeposits(w: World, l: Step)
    requires Enabled(w, l) && MovesBooks(l)
    ensures DepositsMove(w, l, w.store.db.deposits, Next(w, l).store.db.deposits)
    ensures Next(w, l).store.db.converts == w.store.db.converts
  {
    hide Enabled, Next, DepositsMove;
    if l.DepositEvent? || l.HoldDeposit? {
      DepositBooks(w, l);
    } else if l.AddIntent? || l.ExpireIntent? || l.NoteIntent? {
      IntentBooks(w, l);
    } else {
      NoteBooks(w, l);
    }
  }

  lemma DepositBooks(w: World, l: Step)
    requires Enabled(w, l) && (l.DepositEvent? || l.HoldDeposit?)
    ensures DepositsMove(w, l, w.store.db.deposits, Next(w, l).store.db.deposits)
    ensures Next(w, l).store.db.converts == w.store.db.converts
  {
    hide IsNews;
  }

  lemma IntentBooks(w: World, l: Step)
    requires Enabled(w, l) && (l.AddIntent? || l.ExpireIntent? || l.NoteIntent?)
    ensures DepositsMove(w, l, w.store.db.deposits, Next(w, l).store.db.deposits)
    ensures Next(w, l).store.db.converts == w.store.db.converts
  {
  }

  lemma NoteBooks(w: World, l: Step)
    requires Enabled(w, l) && (l.AttemptFails? || l.ReleaseFails? || l.PersistAgain?)
    ensures DepositsMove(w, l, w.store.db.deposits, Next(w, l).store.db.deposits)
    ensures Next(w, l).store.db.converts == w.store.db.converts
  {
  }

  lemma ReleasesDeposits(w: World, l: Step)
    requires Enabled(w, l) && MovesReleases(l)
    ensures DepositsMove(w, l, w.store.db.deposits, Next(w, l).store.db.deposits)
    ensures Next(w, l).store.db.converts == w.store.db.converts
  {
    hide ChoiceFor, MayBind, Already, BoundStore, RedeemedStore;
    if l.ReceiptReturned? {
      ChoiceBinds(w, l.key, l.height, l.tx, l.intents);
      BoundDeposits(w.store, l.key, ChoiceFor(w.cfg, w.store.db.mints[l.key].ssqAddress, l.tx, l.intents).value.id,
                    l.tx.txid);
    } else if l.ReleaseReplies? {
      RedeemedDeposits(w.store, w.release.key, w.pays[w.release.pay].state.txid);
    } else if Already(w, l.upTo).Some? {
      RedeemedDeposits(w.store, w.release.key, Already(w, l.upTo).value);
    }
  }

  lemma BoundDeposits(s: StoreState, key: Outpoint, id: IntentId, txid: string)
    requires key in s.db.mints
    ensures var db := BoundStore(s, key, id, txid).db; db.deposits == s.db.deposits && db.converts == s.db.converts
  {
  }

  lemma RedeemedDeposits(s: StoreState, key: Outpoint, txid: string)
    requires key in s.db.mints
    ensures var db := RedeemedStore(s, key, txid).db; db.deposits == s.db.deposits && db.converts == s.db.converts
  {
  }

  lemma AttemptsDeposits(w: World, l: Step)
    requires Enabled(w, l) && MovesAttempts(l)
    ensures DepositsMove(w, l, w.store.db.deposits, Next(w, l).store.db.deposits)
  {
    hide ScannedStore, SentStore, ClaimStore, Scan.ScanContract, ScriptOf, ClaimOf;
    match l
    case ClaimKey(c) => ClaimedDeposits(w.store, c);
    case EndScan(j, r) => ScannedDeposits(w.cfg, w.store, j, r);
    case SignerReplies(j) => SentDeposits(w.store, j, w.calls[w.attempts[j].call].state.tx.txid);
    case ConvertDone(_) =>
  }

  lemma ClaimedDeposits(s: StoreState, c: Candidate)
    ensures ClaimStore(s, c).db.deposits == s.db.deposits
  {
  }

  lemma ScannedDeposits(cfg: Config, s: StoreState, j: Job, r: Scan.ScanResult)
    requires HasRecord(s.db, j)
    ensures ScannedStore(cfg, s, j, r).db.deposits == s.db.deposits
  {
    hide Recovers;
  }

  lemma SentDeposits(s: StoreState, j: Job, txid: string)
    requires HasRecord(s.db, j)
    ensures SentStore(s, j, txid).db.deposits == s.db.deposits
  {
  }

  lemma RestDeposits(w: World, l: Step)
    requires Enabled(w, l) && !MovesBooks(l) && !MovesReleases(l) && !MovesAttempts(l) && !l.CrashAndReload?
    ensures DepositsMove(w, l, w.store.db.deposits, Next(w, l).store.db.deposits)
    ensures Next(w, l).store.db.converts == w.store.db.converts
  {
    hide ChoiceFor, ClaimOf, ScriptOf, NewCandidate, Eligible, Already, BuiltFor;
  }

  /** Only an event about the deposit makes it what it is: its amount, address and intent are those
      of the first one, and its confidence is that of one of them. */
  lemma DepositsComeFromEvents(ws: seq<World>, ls: seq<Step>, i: nat, key: Outpoint) returns (first: nat, last: nat)
    requires IsRun(ws, ls) && i < |ws| && key in ws[i].store.db.deposits
    ensures first < i && last < i && i <= |ls| && ls[first].DepositEvent? && ls[last].DepositEvent?
    ensures var dep := ws[i].store.db.deposits[key];
            && ls[first].key == ls[last].key == key
            && ls[first].sats == dep.sats && ls[first].address == dep.address && ls[first].intentId == dep.intentId
            && ls[last].confidence == dep.confidence
  {
    hide IsRun, Enabled, Next;
    var dep := ws[i].store.db.deposits[key];
    first := BeganWithAStep(ws, ls, DepositSays(key, dep.sats, dep.address, dep.intentId), i);
    DepositsStep(ws[first], ls[first]);
    last := BeganWithAStep(ws, ls, DepositIs(key, dep.confidence), i);
    DepositsStep(ws[last], ls[last]);
  }

  /** A deposit that a mint may be made against has been seen in a block. */
  lemma ConfirmedIsFromAnEvent(ws: seq<World>, ls: seq<Step>, i: nat, key: Outpoint) returns (at: nat)
    requires IsRun(ws, ls) && i < |ws| && key in ws[i].store.db.mints
    ensures at < i && ls[at].DepositEvent? && ls[at].key == key && ls[at].confidence != Mempool
  {
    hide IsRun, Inv;
    RunInv(ws, ls, i);
    MintIsBacked(ws[i], key);
    var first, last := DepositsComeFromEvents(ws, ls, i, key);
    at := last;
  }

  lemma MintIsBacked(w: World, key: Outpoint)
    requires Inv(w) && key in w.store.db.mints
    ensures MintSound(w.cfg, w.store.db, key, w.store.db.mints[key])
  {
    hide CandidatesOk, CallsOk, OneLive, StagesOk, Ordered, MintSound, ConvertSound;
    NowSound(w.cfg, w.store, |w.chain.blocks|);
  }

  // ---- mints and conversions ----

  /** The tag of the record of a job, and whom the job pays: what it was claimed for. */
  predicate ClaimedFor(cfg: Config, db: Db, j: Job, tag: Receipt.Tag, payTo: string) {
    ClaimOf(cfg, db, j).Some? && ClaimOf(cfg, db, j).value.tag == tag && ClaimOf(cfg, db, j).value.payTo == payTo
  }

  /** The books have the transaction for the job. */
  function HasSent(cfg: Config, j: Job, tag: Receipt.Tag, payTo: string, txid: string): Db -> bool {
    (db: Db) => ClaimedFor(cfg, db, j, tag, payTo) && HasRecord(db, j) && SentTxid(db, j) == Some(txid)
  }

  /** A recovery scan found the transaction on the chain. */
  ghost predicate ScanFound(w: World, l: Step, j: Job, tag: Receipt.Tag, payTo: string, tx: Scan.Tx) {
    && l == EndScan(j, Scan.Found(tx)) && Scan.OnChain(tx, w.chain) && Scan.Carries(tx, ScriptOf(tag))
    && (|tx.outputs| > 0 && tx.outputs[0].address.Some? ==> tx.outputs[0].address.value == payTo)
  }

  /** The signer answered that it has sent it, to the request made for the job. */
  ghost predicate SignerSent(w: World, l: Step, j: Job, payTo: string, tx: Scan.Tx) {
    && l == SignerReplies(j)
    && exists c :: 0 <= c < |w.calls| && w.calls[c].job == j && w.calls[c].payTo == payTo
                   && w.calls[c].state == Broadcast(tx)
  }

  /** The step is what makes the fact true. */
  ghost predicate Sends(w: World, l: Step, j: Job, tag: Receipt.Tag, payTo: string, txid: string)
    requires Enabled(w, l)
  {
    var fact := HasSent(w.cfg, j, tag, payTo, txid);
    Inv(w) && !l.CrashAndReload? && !fact(w.store.db) && fact(Next(w, l).store.db)
  }

  ghost predicate SentBy(w: World, l: Step, j: Job, tag: Receipt.Tag, payTo: string, tx: Scan.Tx) {
    && ClaimedFor(w.cfg, w.store.db, j, tag, payTo)
    && (ScanFound(w, l, j, tag, payTo, tx) || SignerSent(w, l, j, payTo, tx))
  }

  /** A scan's answer is put on record only as the finding of the job it was made for. */
  lemma ScannedSends(cfg: Config, s: StoreState, k: Job, r: Scan.ScanResult, j: Job, tag: Receipt.Tag, payTo: string,
                     txid: string)
    requires HasRecord(s.db, k)
    requires var fact := HasSent(cfg, j, tag, payTo, txid); !fact(s.db) && fact(ScannedStore(cfg, s, k, r).db)
    ensures k == j && r.Found? && r.tx.txid == txid && NamesNoOther(r.tx, payTo) && ClaimedFor(cfg, s.db, j, tag, payTo)
  {
  }

  lemma ReplySent(cfg: Config, s: StoreState, k: Job, reply: string, j: Job, tag: Receipt.Tag, payTo: string,
                  txid: string)
    requires HasRecord(s.db, k)
    requires var fact := HasSent(cfg, j, tag, payTo, txid); !fact(s.db) && fact(SentStore(s, k, reply).db)
    ensures k == j && reply == txid && ClaimedFor(cfg, s.db, j, tag, payTo)
  {
  }

  lemma ScanSends(w: World, l: Step, j: Job, tag: Receipt.Tag, payTo: string, txid: string)
    requires Enabled(w, l) && l.EndScan? && Sends(w, l, j, tag, payTo, txid)
    ensures l.result.Found? && l.result.tx.txid == txid && ScanFound(w, l, j, tag, payTo, l.result.tx)
    ensures ClaimedFor(w.cfg, w.store.db, j, tag, payTo)
  {
    hide Inv, ScriptOf, Scan.OnChain, Scan.Carries, ScannedStore, ClaimOf, HasSent;
    ScannedSends(w.cfg, w.store, l.job, l.result, j, tag, payTo, txid);
  }

  lemma ReplySends(w: World, l: Step, j: Job, tag: Receipt.Tag, payTo: string, txid: string) returns (tx: Scan.Tx)
    requires Enabled(w, l) && l.SignerReplies? && Sends(w, l, j, tag, payTo, txid)
    ensures tx.txid == txid && SignerSent(w, l, j, payTo, tx) && ClaimedFor(w.cfg, w.store.db, j, tag, payTo)
  {
    hide ScriptOf, StoreInv, CandidatesOk, OneLive, CallsOk, SentStore, HasSent, ClaimOf;
    var c := w.attempts[l.job].call;
    tx := w.calls[c].state.tx;
    ReplySent(w.cfg, w.store, l.job, tx.txid, j, tag, payTo, txid);
    assert StageOk(w.cfg, w.store, w.chain, w.calls, l.job, w.attempts[l.job]);
    CallIsFor(w, c);
  }

  lemma CallIsFor(w: World, c: nat)
    requires Inv(w) && c < |w.calls|
    ensures ClaimOf(w.cfg, w.store.db, w.calls[c].job).Some?
    ensures var claim := ClaimOf(w.cfg, w.store.db, w.calls[c].job).value;
            w.calls[c].payTo == claim.payTo && w.calls[c].script == ScriptOf(claim.tag)
  {
    hide CandidatesOk, OneLive, StagesOk, StoreInv, ScriptOf;
    assert CallOk(w.cfg, Disk(w.store), w.chain, w.calls[c]);
    ClaimIsRecord(w.cfg, Disk(w.store), w.calls[c].job);
    DiskClaim(w.cfg, w.store, |w.chain.blocks|, w.calls[c].job);
  }

  lemma ClaimSendsNothing(w: World, l: Step, j: Job, tag: Receipt.Tag, payTo: string, txid: string)
    requires Enabled(w, l) && l.ClaimKey?
    ensures !Sends(w, l, j, tag, payTo, txid)
  {
    hide StoreInv, CallsOk, OneLive, StagesOk, MintSound, ConvertSound;
    assert Inv(w) ==> CandidateOk(w.cfg, w.store.db, l.candidate, |w.chain.blocks|);
  }

  lemma DoneSendsNothing(w: World, l: Step, j: Job, tag: Receipt.Tag, payTo: string, txid: string)
    requires Enabled(w, l) && l.ConvertDone?
    ensures !Sends(w, l, j, tag, payTo, txid)
  {
    hide Inv;
  }

  lemma RestSendsNothing(w: World, l: Step, j: Job, tag: Receipt.Tag, payTo: string, txid: string)
    requires Enabled(w, l) && !MovesAttempts(l)
    ensures !Sends(w, l, j, tag, payTo, txid)
  {
    hide Inv, Enabled, Next, Writes;
    if !l.CrashAndReload? {
      DepositsStep(w, l);
      WritesMints(w, l);
      if Writes(w, l).Some? {
        WritesSameClaim(w, l);
      }
    }
  }

  lemma WritesSameClaim(w: World, l: Step)
    requires Enabled(w, l) && !MovesAttempts(l) && Writes(w, l).Some?
    ensures var key, rec := Writes(w, l).value.key, Writes(w, l).value.rec;
            && key in w.store.db.mints && SameMintClaim(w.store.db.mints[key], rec)
            && rec.mintTxid == w.store.db.mints[key].mintTxid
  {
    hide ChoiceFor, MayBind, Already;
    if l.ReceiptReturned? {
      ChoiceBinds(w, l.key, l.height, l.tx, l.intents);
    }
  }

  lemma SendsBy(w: World, l: Step, j: Job, tag: Receipt.Tag, payTo: string, txid: string) returns (tx: Scan.Tx)
    requires Enabled(w, l) && Sends(w, l, j, tag, payTo, txid)
    ensures tx.txid == txid && SentBy(w, l, j, tag, payTo, tx)
  {
    hide Enabled, Next, Sends, ScanFound, SignerSent, ClaimedFor;
    match l {
      case EndScan(_, _) =>
        ScanSends(w, l, j, tag, payTo, txid);
        tx := l.result.tx;
      case SignerReplies(_) => tx := ReplySends(w, l, j, tag, payTo, txid);
      case ClaimKey(_) => ClaimSendsNothing(w, l, j, tag, payTo, txid);
      case ConvertDone(_) => DoneSendsNothing(w, l, j, tag, payTo, txid);
      case _ => RestSendsNothing(w, l, j, tag, payTo, txid);
    }
  }

  lemma {:induction false} ChainOverRun(ws: seq<World>, ls: seq<Step>, a: nat, b: nat)
    requires IsRun(ws, ls) && a <= b < |ws|
    ensures Scan.Extends(ws[a].chain, ws[b].chain) && ws[a].cfg == ws[b].cfg
    decreases b
  {
    hide Enabled, Assumed, Next, Scan.Extends;
    if a == b {
      Scan.ExtendsReflexive(ws[a].chain);
    } else {
      ChainOverRun(ws, ls, a, b - 1);
      assert ws[b] == Next(ws[b - 1], ls[b - 1]);
      MintEvidence.ChainOnlyGrows(ws[b - 1], ls[b - 1]);
      Scan.ExtendsTransitive(ws[a].chain, ws[b - 1].chain, ws[b].chain);
    }
  }

  lemma SentIsOnChain(w: World, l: Step, j: Job, tag: Receipt.Tag, payTo: string, tx: Scan.Tx)
    requires Inv(w) && Enabled(w, l) && SentBy(w, l, j, tag, payTo, tx)
    ensures Scan.OnChain(tx, w.chain) && Scan.Carries(tx, ScriptOf(tag))
  {
    hide Inv, Enabled, Scan.OnChain, Scan.Carries, ScriptOf;
    if SignerSent(w, l, j, payTo, tx) {
      var c :| 0 <= c < |w.calls| && w.calls[c].job == j && w.calls[c].payTo == payTo
               && w.calls[c].state == Broadcast(tx);
      CallCarries(w, c);
      MintEvidence.CallIsOnChain(w, c);
    }
  }

  /** The transaction that the books have for a mint, or for the treasury send of a conversion, was
      found on the chain by a scan for the job's tag, and then its first output names nobody but
      the payee; or the signer answered with it, to a request to pay the payee.  It is on the
      chain, under the tag. */
  lemma SentByScanOrSigner(ws: seq<World>, ls: seq<Step>, i: nat, j: Job) returns (at: nat, tx: Scan.Tx)
    requires IsRun(ws, ls) && i < |ws| && HasRecord(ws[i].store.db, j) && SentTxid(ws[i].store.db, j).Some?
    ensures at < i <= |ls| && SentTxid(ws[i].store.db, j) == Some(tx.txid)
    ensures ClaimOf(ws[i].cfg, ws[i].store.db, j).Some?
    ensures var claim := ClaimOf(ws[i].cfg, ws[i].store.db, j).value;
            && SentBy(ws[at], ls[at], j, claim.tag, claim.payTo, tx)
            && Scan.OnChain(tx, ws[i].chain) && Scan.Carries(tx, ScriptOf(claim.tag))
  {
    hide IsRun, Enabled, Next, Inv, SentBy, Scan.Extends, Scan.OnChain, Scan.Carries, ScriptOf;
    ClaimIsRecord(ws[i].cfg, ws[i].store.db, j);
    var claim, txid := ClaimOf(ws[i].cfg, ws[i].store.db, j).value, SentTxid(ws[i].store.db, j).value;
    at := BeganWithAStep(ws, ls, HasSent(ws[i].cfg, j, claim.tag, claim.payTo, txid), i);
    ChainOverRun(ws, ls, at, i);
    RunInv(ws, ls, at);
    tx := SendsBy(ws[at], ls[at], j, claim.tag, claim.payTo, txid);
    SentIsOnChain(ws[at], ls[at], j, claim.tag, claim.payTo, tx);
    MintEvidence.StaysOnChain(tx, ws[at].chain, ws[i].chain);
  }

  /** What the signer is asked for: to put the deposit's tag, with the deposit's own sats, into a
      payment to the holder that the deposit's intent names; or, for a conversion of a receipt that
      has been minted, into one to the treasury. */
  lemma CallsFollowDeposits(ws: seq<World>, ls: seq<Step>, i: nat, c: nat)
    requires IsRun(ws, ls) && i < |ws| && c < |ws[i].calls|
    ensures var call, db := ws[i].calls[c], ws[i].store.db;
            && call.job.key in db.deposits && db.deposits[call.job.key].intentId.Some?
            && db.deposits[call.job.key].intentId.value in db.intents
            && call.script == ScriptOf(TagFor(call.job, db.deposits[call.job.key].sats))
            && call.payTo == (if call.job.leg.ConvertLeg? then ws[i].cfg.treasuryAddress
                              else db.intents[db.deposits[call.job.key].intentId.value].ssqAddress)
            && (call.job.leg.ConvertLeg? ==>
                  call.job.key in db.mints && db.mints[call.job.key].status != Minting)
  {
    hide IsRun, Inv, ScriptOf, TagFor;
    RunInv(ws, ls, i);
    CallIsFor(ws[i], c);
    JobIsSound(ws[i], ws[i].calls[c].job);
  }

  lemma JobIsSound(w: World, j: Job)
    requires Inv(w) && ClaimOf(w.cfg, w.store.db, j).Some?
    ensures j.key in w.store.db.mints && MintSound(w.cfg, w.store.db, j.key, w.store.db.mints[j.key])
    ensures j.leg.ConvertLeg? ==>
              j.key in w.store.db.converts && ConvertSound(w.store.db, j.key, w.store.db.converts[j.key])
  {
    hide CandidatesOk, CallsOk, OneLive, StagesOk, Ordered, Backed, TagFits, BoundTo;
    NowSound(w.cfg, w.store, |w.chain.blocks|);
    if j.leg.ConvertLeg? {
      assert ConvertSound(w.store.db, j.key, w.store.db.converts[j.key]);
    }
  }

  // ---- bindings and releases ----

  function BoundBy(key: Outpoint, id: IntentId, spendTxid: Option<string>): Db -> bool {
    (db: Db) => key in db.mints && db.mints[key].redeemIntentId == Some(id)
                && db.mints[key].receiptSpendTxid == spendTxid
  }

  function ReleasedAs(key: Outpoint, txid: string): Db -> bool {
    (db: Db) => key in db.mints && db.mints[key].releaseTxid == Some(txid)
  }

  /** A record is bound to an intent only by a block's transaction that returns its receipt, whose
      id it notes, and to the intent that is chosen for that. */
  lemma BoundByAReturn(ws: seq<World>, ls: seq<Step>, i: nat, key: Outpoint) returns (at: nat)
    requires IsRun(ws, ls) && i < |ws| && key in ws[i].store.db.mints
    requires ws[i].store.db.mints[key].redeemIntentId.Some?
    ensures at < i <= |ls| && ls[at].ReceiptReturned? && ls[at].key == key
    ensures var rec, w, l := ws[i].store.db.mints[key], ws[at], ls[at];
            && MayBind(w, key, l.height, l.tx, l.intents)
            && rec.receiptSpendTxid == Some(l.tx.txid)
            && rec.redeemIntentId.value
            == ChoiceFor(w.cfg, w.store.db.mints[key].ssqAddress, l.tx, l.intents).value.id
  {
    hide IsRun, Enabled, Next, Inv, Writes, ChoiceFor, MayBind;
    var rec := ws[i].store.db.mints[key];
    at := BeganWithAStep(ws, ls, BoundBy(key, rec.redeemIntentId.value, rec.receiptSpendTxid), i);
    RunInv(ws, ls, at);
    BindsBy(ws[at], ls[at], key, rec.redeemIntentId.value, rec.receiptSpendTxid);
  }

  lemma BindsBy(w: World, l: Step, key: Outpoint, id: IntentId, spendTxid: Option<string>)
    requires Inv(w) && Enabled(w, l) && !l.CrashAndReload?
    requires !BoundBy(key, id, spendTxid)(w.store.db) && BoundBy(key, id, spendTxid)(Next(w, l).store.db)
    ensures l.ReceiptReturned? && l.key == key && MayBind(w, key, l.height, l.tx, l.intents)
    ensures spendTxid == Some(l.tx.txid)
    ensures id == ChoiceFor(w.cfg, w.store.db.mints[key].ssqAddress, l.tx, l.intents).value.id
  {
    hide Inv, Next, Enabled, Already, ChoiceFor, MayBind, ScanWritten;
    WritesMints(w, l);
    if l.ClaimKey? {
      ClaimIsFresh(w, l);
    } else if l.ReceiptReturned? {
      ReturnMayBind(w, l);
    } else {
      OthersBindNothing(w, l);
    }
  }

  lemma ReturnMayBind(w: World, l: Step)
    requires Enabled(w, l) && l.ReceiptReturned?
    ensures MayBind(w, l.key, l.height, l.tx, l.intents)
  {
    hide MayBind;
  }

  lemma ClaimIsFresh(w: World, l: Step)
    requires Inv(w) && Enabled(w, l) && l.ClaimKey? && Writes(w, l).Some?
    ensures var rec := Writes(w, l).value.rec; rec.redeemIntentId.None? && rec.releaseTxid.None?
  {
    hide StoreInv, CallsOk, OneLive, StagesOk, MintSound;
    assert CandidateOk(w.cfg, w.store.db, l.candidate, |w.chain.blocks|);
  }

  lemma OthersBindNothing(w: World, l: Step)
    requires Enabled(w, l) && !l.ClaimKey? && !l.ReceiptReturned?
    ensures Writes(w, l).Some? ==>
            var key, rec := Writes(w, l).value.key, Writes(w, l).value.rec;
            && key in w.store.db.mints
            && rec.redeemIntentId == w.store.db.mints[key].redeemIntentId
            && rec.receiptSpendTxid == w.store.db.mints[key].receiptSpendTxid
  {
    hide Recovers, Scan.ScanContract, ClaimOf, ScriptOf, Already;
  }

  lemma OthersReleaseNothing(w: World, l: Step)
    requires Enabled(w, l) && !l.ClaimKey? && !l.HistoryArrives? && !l.ReleaseReplies?
    ensures Writes(w, l).Some? ==>
            var key, rec := Writes(w, l).value.key, Writes(w, l).value.rec;
            key in w.store.db.mints && rec.releaseTxid == w.store.db.mints[key].releaseTxid
  {
    hide Recovers, Scan.ScanContract, ClaimOf, ScriptOf, ChoiceFor, Returns, Payout.IsListing;
  }

  /** The wallet has made that payment under the intent's own comment. */
  predicate InHistory(w: World, id: IntentId, txid: string) {
    WalletEntry(true, Comment(id), txid) in w.wallet
  }

  /** A release on record is a payment that the wallet has made under an intent's comment. */
  lemma ReleasedByTheWallet(ws: seq<World>, ls: seq<Step>, i: nat, key: Outpoint) returns (at: nat, id: IntentId)
    requires IsRun(ws, ls) && i < |ws| && key in ws[i].store.db.mints
    requires ws[i].store.db.mints[key].releaseTxid.Some?
    ensures at < i <= |ls| && InHistory(ws[at], id, ws[i].store.db.mints[key].releaseTxid.value)
    ensures var w := ws[at];
            || (ls[at].HistoryArrives? && w.release.Checking? && w.release.key == key && w.release.target.intent == id)
            || (ls[at].ReleaseReplies? && w.release.Paying? && w.release.key == key
                && w.release.pay < |w.pays| && w.pays[w.release.pay].intent == id)
  {
    hide IsRun, Enabled, Next, Inv, Writes, PayInv;
    var txid := ws[i].store.db.mints[key].releaseTxid.value;
    at := BeganWithAStep(ws, ls, ReleasedAs(key, txid), i);
    RunInv(ws, ls, at);
    RunPayInv(ws, ls, at);
    id := ReleasesBy(ws[at], ls[at], key, txid);
  }

  lemma ReleasesBy(w: World, l: Step, key: Outpoint, txid: string) returns (id: IntentId)
    requires Inv(w) && PayInv(w) && Enabled(w, l) && !l.CrashAndReload?
    requires !ReleasedAs(key, txid)(w.store.db) && ReleasedAs(key, txid)(Next(w, l).store.db)
    ensures InHistory(w, id, txid)
    ensures || (l.HistoryArrives? && w.release.Checking? && w.release.key == key && w.release.target.intent == id)
            || (l.ReleaseReplies? && w.release.Paying? && w.release.key == key
                && w.release.pay < |w.pays| && w.pays[w.release.pay].intent == id)
  {
    WritesMints(w, l);
    hide Inv, Next, ChoiceFor, MayBind, ScanWritten, Comment, OneLivePay, CheckingSettled, Already;
    id := "";
    if l.ClaimKey? {
      ClaimIsFresh(w, l);
    } else if l.HistoryArrives? {
      id := w.release.target.intent;
      AlreadyIsInWallet(w, l.upTo);
    } else if l.ReleaseReplies? {
      id := w.pays[w.release.pay].intent;
      assert EntryOf(w.pays[w.release.pay]) in w.wallet;
    } else {
      OthersReleaseNothing(w, l);
    }
  }

  lemma AlreadyIsInWallet(w: World, upTo: nat)
    requires w.release.Checking? && upTo <= |w.wallet| && Already(w, upTo).Some?
    ensures InHistory(w, w.release.target.intent, Already(w, upTo).value)
  {
    hide Comment, FirstRelease;
    var e :| e in History(w, upTo) && IsRelease(e, w.release.target.intent) && Already(w, upTo).value == e.txid;
    assert e == WalletEntry(true, Comment(w.release.target.intent), e.txid);
  }
}
