/** The money path of gateway.ts, cut at each await: what one synchronous stretch does to
    the store and to the in-flight sets.  The stretches are functions of the store; the
    class runs them step by step and meets them. */
module Gateway {
  import opened ByteStrings
  import opened Store
  import opened Sums
  import Payout
  import Receipt
  import Scan

  /** A mint, or the tagged treasury send of a conversion, for one deposit outpoint. */
  datatype Leg = MintLeg | ConvertLeg
  datatype Job = Job(leg: Leg, key: Outpoint)

  /** `digest` is the hash of a payout address that commitments are made of. */
  datatype Config = Config(minDepositSats: nat, treasuryAddress: string, redemptionAddress: string,
                           digest: string -> Bytes)

  /** What the two kinds of record have in common. */
  datatype Claim = Claim(tag: Receipt.Tag, height: nat, payTo: string)

  function ClaimOf(cfg: Config, db: Db, j: Job): Option<Claim> {
    match j.leg
    case MintLeg =>
      if j.key in db.mints then
        Some(Claim(db.mints[j.key].tag, db.mints[j.key].claimHeight, db.mints[j.key].ssqAddress))
      else None
    case ConvertLeg =>
      if j.key in db.converts then
        Some(Claim(db.converts[j.key].tag, db.converts[j.key].claimHeight, cfg.treasuryAddress))
      else None
  }

  /** The script a scan looks for, and the signer puts into the transaction. */
  function ScriptOf(tag: Receipt.Tag): string {
    var s := Receipt.TagScriptHex(Receipt.EncodingOf(tag));
    if s.Some? then s.value else ""
  }

  function TagFor(j: Job, sats: nat): Receipt.Tag {
    Receipt.Tag(if j.leg.MintLeg? then Receipt.Mint else Receipt.Convert, sats, j.key.txid, j.key.vout, None)
  }

  // ---- claiming ----

  /** The deposit has been seen in a block, belongs to a deposit intent, and is not claimed yet. */
  predicate Waits(db: Db, key: Outpoint) {
    && key in db.deposits && key !in db.mints && db.deposits[key].confidence != Mempool
    && db.deposits[key].intentId.Some? && db.deposits[key].intentId.value in db.intents
    && db.intents[db.deposits[key].intentId.value].kind == DepositIntent
  }

  /** The checks of mintForDepositKey that come before the claim. */
  predicate EligibleToMint(cfg: Config, db: Db, key: Outpoint) {
    && Waits(db, key) && db.deposits[key].sats >= cfg.minDepositSats
    && Receipt.ValidTag(TagFor(Job(MintLeg, key), db.deposits[key].sats))
  }

  /** The checks of startConvertLeg, and of the tick that calls it. */
  predicate EligibleToConvert(db: Db, key: Outpoint) {
    && key in db.mints && key !in db.converts && db.mints[key].status != Minting
    && Receipt.ValidTag(TagFor(Job(ConvertLeg, key), db.mints[key].sats))
  }

  predicate Eligible(cfg: Config, db: Db, j: Job) {
    if j.leg.MintLeg? then EligibleToMint(cfg, db, j.key) else EligibleToConvert(db, j.key)
  }

  /** A record built after the tip was read, waiting to be claimed. */
  datatype Candidate =
    | MintCandidate(key: Outpoint, mint: MintRecord)
    | ConvertCandidate(key: Outpoint, convert: ConvertRecord)
  {
    function Height(): nat {
      if MintCandidate? then mint.claimHeight else convert.claimHeight
    }
  }

  function NewCandidate(cfg: Config, db: Db, j: Job, tip: nat): Candidate
    requires Eligible(cfg, db, j)
  {
    match j.leg
    case MintLeg =>
      var dep := db.deposits[j.key];
      MintCandidate(j.key, MintRecord(db.intents[dep.intentId.value].ssqAddress, dep.sats, TagFor(j, dep.sats),
                                      Minting, tip, 0, None, None, None, None))
    case ConvertLeg =>
      ConvertCandidate(j.key, ConvertRecord(db.mints[j.key].sats, TagFor(j, db.mints[j.key].sats), tip, 0, None, false))
  }

  /** The claim: only if no record exists. */
  function ClaimStore(s: StoreState, c: Candidate): StoreState {
    match c
    case MintCandidate(key, rec) => if key in s.db.mints then s else WithMint(s, key, rec)
    case ConvertCandidate(key, rec) => if key in s.db.converts then s else WithConvert(s, key, rec)
  }

  /** A deposit that may not be minted is held, and noted once. */
  function HeldStore(cfg: Config, s: StoreState, key: Outpoint, validAddress: bool): StoreState {
    if !Waits(s.db, key) then s
    else
      var dep := s.db.deposits[key];
      var reason := if dep.sats < cfg.minDepositSats then Some(Underpay)
                    else if validAddress then None
                    else Some(BadRecipient);
      if reason.None? || dep.held == reason then s else WithDeposit(s, key, dep.(held := reason))
  }

  // ---- one attempt ----

  predicate HasRecord(db: Db, j: Job) {
    if j.leg.MintLeg? then j.key in db.mints else j.key in db.converts
  }

  /** The transaction that the books have for the job. */
  function SentTxid(db: Db, j: Job): Option<string>
    requires HasRecord(db, j)
  {
    if j.leg.MintLeg? then db.mints[j.key].mintTxid else db.converts[j.key].treasuryTxid
  }

  /** A conversion whose treasury send is recorded goes on without scanning or sending. */
  predicate NeedsSend(db: Db, j: Job)
    requires HasRecord(db, j)
  {
    j.leg.MintLeg? || db.converts[j.key].treasuryTxid.None?
  }

  /** attempts += 1 and persist, before the signer is called. */
  function AttemptStore(s: StoreState, j: Job): StoreState
    requires HasRecord(s.db, j)
  {
    match j.leg
    case MintLeg => var r := s.db.mints[j.key]; WithMint(s, j.key, r.(attempts := r.attempts + 1))
    case ConvertLeg => var r := s.db.converts[j.key]; WithConvert(s, j.key, r.(attempts := r.attempts + 1))
  }

  /** The transaction is known: finalizeMint, or the treasury txid of a conversion. */
  function SentStore(s: StoreState, j: Job, txid: string): StoreState
    requires HasRecord(s.db, j)
  {
    match j.leg
    case MintLeg => WithMint(s, j.key, s.db.mints[j.key].(status := Minted, mintTxid := Some(txid)))
    case ConvertLeg => WithConvert(s, j.key, s.db.converts[j.key].(treasuryTxid := Some(txid)))
  }

  /** Only an error note changed: persist. */
  function NoteStore(s: StoreState): StoreState {
    Persist(s)
  }

  /** A recovered transaction is trusted unless its first output names another address. */
  predicate NamesNoOther(tx: Scan.Tx, payTo: string) {
    |tx.outputs| > 0 && tx.outputs[0].address.Some? ==> tx.outputs[0].address.value == payTo
  }

  /** The scan's answer makes the gateway finalize the record. */
  predicate Recovers(cfg: Config, db: Db, j: Job, r: Scan.ScanResult)
    requires HasRecord(db, j)
  {
    r.Found? && NamesNoOther(r.tx, ClaimOf(cfg, db, j).value.payTo)
  }

  /** The stretch after the scan. */
  function ScannedStore(cfg: Config, s: StoreState, j: Job, r: Scan.ScanResult): StoreState
    requires HasRecord(s.db, j)
  {
    match r
    case Found(tx) => if Recovers(cfg, s.db, j, r) then SentStore(s, j, tx.txid) else NoteStore(s)
    case NotFound => AttemptStore(s, j)
    case Threw => NoteStore(s)
  }

  // ---- the whole call ----

  /** What one call of mintForDepositKey is told: the address check and the tip (nothing if the
      node cannot be reached), the breaker, the scan, and the signer's reply, if there is one. */
  datatype Answers = Answers(node: Option<bool>, tip: Option<nat>, deferred: bool, scan: Scan.ScanResult,
                             reply: Option<string>)

  /** attemptMint for a claimed record. */
  function AttemptCall(cfg: Config, s: StoreState, j: Job, busy: bool, a: Answers): (StoreState, Option<string>)
    requires HasRecord(s.db, j)
  {
    if busy || a.deferred then (s, None)
    else
      var scanned := ScannedStore(cfg, s, j, a.scan);
      if !a.scan.NotFound? then (scanned, if Recovers(cfg, s.db, j, a.scan) then Some(a.scan.tx.txid) else None)
      else if a.reply.Some? then (SentStore(scanned, j, a.reply.value), a.reply)
      else (NoteStore(scanned), None)
  }

  /** mintForDepositKey, when nothing else moves the store while it waits. */
  function MintCall(cfg: Config, s: StoreState, busy: bool, key: Outpoint, a: Answers): (StoreState, Option<string>) {
    var j := Job(MintLeg, key);
    if key in s.db.deposits && key in s.db.mints then (s, s.db.mints[key].mintTxid)
    else if a.node == Some(true) && a.tip.Some? && EligibleToMint(cfg, s.db, key) then
      AttemptCall(cfg, ClaimStore(s, NewCandidate(cfg, s.db, j, a.tip.value)), j, busy, a)
    else (HeldStore(cfg, s, key, a.node != Some(false)), None)
  }

  // ---- redemption ----

  /** The release claim: the record is redeeming before any wallet call. */
  function BoundStore(s: StoreState, key: Outpoint, id: IntentId, spendTxid: string): StoreState
    requires key in s.db.mints
  {
    WithMint(s, key, s.db.mints[key].(status := Redeeming, redeemIntentId := Some(id),
                                      receiptSpendTxid := Some(spendTxid)))
  }

  /** The redeem intent follows its record: received, then released. */
  function IntentStore(s: StoreState, id: IntentId, status: RedeemStatus): StoreState
    requires id in s.db.intents
  {
    WithIntent(s, id, s.db.intents[id].(status := status))
  }

  /** finalizeRelease, up to its first await. */
  function RedeemedStore(s: StoreState, key: Outpoint, txid: string): StoreState
    requires key in s.db.mints
  {
    WithMint(s, key, s.db.mints[key].(status := Redeemed, releaseTxid := Some(txid)))
  }

  // ---- the release wallet ----

  /** One line of the wallet's history. */
  datatype WalletEntry = WalletEntry(send: bool, comment: string, txid: string)

  function Comment(id: IntentId): string {
    "redeem:" + id
  }

  predicate IsRelease(e: WalletEntry, id: IntentId) {
    e.send && e.comment == Comment(id)
  }

  const HISTORY := 1000

  /** listtransactions: the newest entries, oldest first. */
  function Recent(wallet: seq<WalletEntry>): seq<WalletEntry> {
    if |wallet| <= HISTORY then wallet else wallet[|wallet| - HISTORY..]
  }

  function FirstRelease(history: seq<WalletEntry>, id: IntentId): (r: Option<string>)
    ensures r.Some? ==> exists e :: e in history && IsRelease(e, id) && r.value == e.txid
    ensures r.None? ==> forall e :: e in history ==> !IsRelease(e, id)
  {
    if history == [] then None
    else if IsRelease(history[0], id) then Some(history[0].txid)
    else FirstRelease(history[1..], id)
  }

  /** Whom a release is for; without it the record is handled by hand. */
  datatype Target = Target(intent: IntentId, address: string)

  function ReleaseTarget(db: Db, key: Outpoint): Option<Target>
    requires key in db.mints
  {
    var id := db.mints[key].redeemIntentId;
    if id.None? || id.value !in db.intents || db.intents[id.value].btcAddress.None? then None
    else Some(Target(id.value, db.intents[id.value].btcAddress.value))
  }

  // ---- deposits ----

  function Rank(c: Confidence): nat {
    match c case Mempool => 0 case Confirmed => 1 case Finalized => 2
  }

  /** The dedup gate: an event for a known deposit counts only if its confidence is higher. */
  predicate IsNews(db: Db, key: Outpoint, confidence: Confidence) {
    key in db.deposits ==> Rank(confidence) > Rank(db.deposits[key].confidence)
  }

  function DepositStore(s: StoreState, key: Outpoint, sats: nat, address: string, confidence: Confidence,
                        intentId: Option<IntentId>): StoreState
  {
    WithDeposit(s, key, if key in s.db.deposits then s.db.deposits[key].(confidence := confidence)
                        else Deposit(sats, address, confidence, intentId, None))
  }

  class BtcsoqGateway {
    const cfg: Config
    const store: GatewayStore
    var mintingInFlight: set<Outpoint>
    var convertingInFlight: set<Outpoint>
    var porHalted: bool

    constructor (cfg: Config, store: GatewayStore)
      ensures this.cfg == cfg && this.store == store && Busy() == {} && !porHalted
    {
      this.cfg, this.store := cfg, store;
      mintingInFlight, convertingInFlight, porHalted := {}, {}, false;
    }

    /** Every job with an attempt in progress. */
    function Busy(): set<Job>
      reads this
    {
      (set k | k in mintingInFlight :: Job(MintLeg, k)) + (set k | k in convertingInFlight :: Job(ConvertLeg, k))
    }

    /** mintForDepositKey up to the claim.  `node` says whether the address is valid and `tip`
        how high the chain is; without either the deposit is neither claimed nor held. */
    method ClaimMintFor(key: Outpoint, node: Option<bool>, tip: Option<nat>) returns (claimed: bool)
      requires store.Valid()
      modifies store
      ensures store.Valid()
      ensures claimed <==> node == Some(true) && tip.Some? && EligibleToMint(cfg, old(store.Memory()), key)
      ensures claimed ==> store.View() == ClaimStore(old(store.View()),
                            NewCandidate(cfg, old(store.Memory()), Job(MintLeg, key), tip.value))
      ensures !claimed ==> store.View() == HeldStore(cfg, old(store.View()), key, node != Some(false))
      ensures claimed <==>
              && node == Some(true) && tip.Some? && Waits(old(store.Memory()), key)
              && old(store.deposits)[key].sats >= cfg.minDepositSats
              && Receipt.ValidTag(Receipt.Tag(Receipt.Mint, old(store.deposits)[key].sats, key.txid, key.vout, None))
      ensures claimed ==>
                var dep := old(store.deposits)[key];
                store.mints == old(store.mints)[key :=
                  MintRecord(old(store.intents)[dep.intentId.value].ssqAddress, dep.sats,
                             Receipt.Tag(Receipt.Mint, dep.sats, key.txid, key.vout, None), Minting, tip.value, 0,
                             None, None, None, None)]
      ensures Waits(old(store.Memory()), key) ==>
                var dep := old(store.deposits)[key];
                store.deposits == old(store.deposits)[key :=
                  dep.(held := if dep.sats < cfg.minDepositSats then Some(Underpay)
                               else if node == Some(false) then Some(BadRecipient) else dep.held)]
      ensures !Waits(old(store.Memory()), key) ==> store.View() == old(store.View())
    {
      claimed := false;
      if key !in store.deposits || key in store.mints {
        return;
      }
      var dep := store.deposits[key];
      if dep.confidence == Mempool || dep.intentId.None? || dep.intentId.value !in store.intents {
        return;
      }
      var intent := store.intents[dep.intentId.value];
      if intent.kind != DepositIntent {
        return;
      }
      if dep.sats < cfg.minDepositSats {
        if dep.held != Some(Underpay) {
          var ticket := store.PutDeposit(key, dep.(held := Some(Underpay)));
        }
        return;
      }
      if node.None? {
        return;
      }
      if !node.value {
        if dep.held != Some(BadRecipient) {
          var ticket := store.PutDeposit(key, dep.(held := Some(BadRecipient)));
        }
        return;
      }
      var tag := TagFor(Job(MintLeg, key), dep.sats);
      if !Receipt.ValidTag(tag) || tip.None? {
        return;
      }
      var rec := MintRecord(intent.ssqAddress, dep.sats, tag, Minting, tip.value, 0, None, None, None, None);
      var ticket;
      claimed, ticket := store.ClaimMint(key, rec);
    }

    /** mintForDepositKey: what is minted already is answered from the books, and otherwise a
        claimed deposit is attempted at once. */
    method MintForDepositKey(key: Outpoint, a: Answers) returns (txid: Option<string>)
      requires store.Valid()
      modifies store, this`mintingInFlight, this`convertingInFlight
      ensures store.Valid() && Busy() == old(Busy())
      ensures (store.View(), txid) == MintCall(cfg, old(store.View()), Job(MintLeg, key) in old(Busy()), key, a)
      ensures txid == if key in old(store.deposits) && key in store.mints then store.mints[key].mintTxid else None
    {
      var j := Job(MintLeg, key);
      if key in store.deposits && key in store.mints {
        return store.mints[key].mintTxid;
      }
      var claimed := ClaimMintFor(key, a.node, a.tip);
      if !claimed {
        return None;
      }
      txid := Attempt(j, a);
    }

    /** attemptMint, or attemptConvert up to its treasury send, from end to end. */
    method Attempt(j: Job, a: Answers) returns (txid: Option<string>)
      requires store.Valid() && HasRecord(store.Memory(), j)
      modifies store, this`mintingInFlight, this`convertingInFlight
      ensures store.Valid() && Busy() == old(Busy())
      ensures (store.View(), txid) == AttemptCall(cfg, old(store.View()), j, j in old(Busy()), a)
      ensures HasRecord(store.Memory(), j)
      ensures SentTxid(store.Memory(), j) == if txid.Some? then txid else SentTxid(old(store.Memory()), j)
      ensures txid.Some? && j.leg.MintLeg? ==> store.mints[j.key].status == Minted
      ensures txid == if j in old(Busy()) || a.deferred then None
                      else if a.scan.NotFound? then a.reply
                      else if a.scan.Found?
                              && NamesNoOther(a.scan.tx, if j.leg.MintLeg? then old(store.mints)[j.key].ssqAddress
                                                         else cfg.treasuryAddress)
                        then Some(a.scan.tx.txid)
                      else None
    {
      var started := BeginAttempt(j, a.deferred);
      if !started {
        return None;
      }
      var payTo := if j.leg.MintLeg? then store.mints[j.key].ssqAddress else cfg.treasuryAddress;
      var send := AfterScan(j, a.scan);
      if !send {
        txid := if a.scan.Found? && NamesNoOther(a.scan.tx, payTo) then Some(a.scan.tx.txid) else None;
      } else if a.reply.Some? {
        FinishSend(j, a.reply.value);
        txid := a.reply;
      } else {
        var ticket := store.PersistState();
        txid := None;
      }
      EndAttempt(j);
    }

    /** startConvertLeg up to the claim, as the tick calls it. */
    method ClaimConvertFor(key: Outpoint, deferred: bool, tip: nat) returns (claimed: bool)
      requires store.Valid()
      modifies store
      ensures store.Valid()
      ensures claimed <==> !deferred && EligibleToConvert(old(store.Memory()), key)
      ensures store.View() == if claimed then ClaimStore(old(store.View()),
                                NewCandidate(cfg, old(store.Memory()), Job(ConvertLeg, key), tip))
                              else old(store.View())
      ensures claimed <==>
              && !deferred && key in store.mints && store.mints[key].status != Minting && key !in old(store.converts)
              && Receipt.ValidTag(Receipt.Tag(Receipt.Convert, store.mints[key].sats, key.txid, key.vout, None))
      ensures claimed ==>
                store.converts == old(store.converts)[key :=
                  ConvertRecord(store.mints[key].sats,
                                Receipt.Tag(Receipt.Convert, store.mints[key].sats, key.txid, key.vout, None), tip, 0,
                                None, false)]
    {
      claimed := false;
      if key !in store.mints || store.mints[key].status == Minting || key in store.converts || deferred {
        return;
      }
      var tag := TagFor(Job(ConvertLeg, key), store.mints[key].sats);
      if !Receipt.ValidTag(tag) {
        return;
      }
      var ticket;
      claimed, ticket := store.ClaimConvert(key, ConvertRecord(store.mints[key].sats, tag, tip, 0, None, false));
    }

    /** attemptMint and attemptConvert up to the scan: take the key, or walk away. */
    method BeginAttempt(j: Job, deferred: bool) returns (started: bool)
      modifies this`mintingInFlight, this`convertingInFlight
      ensures started <==> j !in old(Busy()) && !deferred
      ensures Busy() == old(Busy()) + (if started then {j} else {})
    {
      started := false;
      if j.leg.MintLeg? {
        if j.key !in mintingInFlight && !deferred {
          mintingInFlight := mintingInFlight + {j.key};
          started := true;
        }
      } else if j.key !in convertingInFlight && !deferred {
        convertingInFlight := convertingInFlight + {j.key};
        started := true;
      }
    }

    /** The stretch after the scan; `send` says that the signer is to be called once the
        attempt is on disk. */
    method AfterScan(j: Job, r: Scan.ScanResult) returns (send: bool)
      requires store.Valid() && HasRecord(store.Memory(), j)
      modifies store
      ensures store.Valid() && store.View() == ScannedStore(cfg, old(store.View()), j, r)
      ensures send <==> r.NotFound?
      ensures store.saves == old(store.saves) + [store.Memory()]
      ensures if j.leg.MintLeg? then
                var rec := old(store.mints)[j.key];
                && store.converts == old(store.converts)
                && store.mints == old(store.mints)[j.key :=
                     if r.NotFound? then rec.(attempts := rec.attempts + 1)
                     else if r.Found? && NamesNoOther(r.tx, rec.ssqAddress) then
                       rec.(status := Minted, mintTxid := Some(r.tx.txid))
                     else rec]
              else
                var rec := old(store.converts)[j.key];
                && store.mints == old(store.mints)
                && store.converts == old(store.converts)[j.key :=
                     if r.NotFound? then rec.(attempts := rec.attempts + 1)
                     else if r.Found? && NamesNoOther(r.tx, cfg.treasuryAddress) then
                       rec.(treasuryTxid := Some(r.tx.txid))
                     else rec]
    {
      send := false;
      var ticket;
      match r
      case Found(tx) =>
        var payTo := if j.leg.MintLeg? then store.mints[j.key].ssqAddress else cfg.treasuryAddress;
        if |tx.outputs| > 0 && tx.outputs[0].address.Some? && tx.outputs[0].address.value != payTo {
          ticket := store.PersistState();
        } else {
          FinishSend(j, tx.txid);
        }
      case NotFound =>
        send := true;
        if j.leg.MintLeg? {
          var rec := store.mints[j.key];
          ticket := store.PutMint(j.key, rec.(attempts := rec.attempts + 1));
        } else {
          var rec := store.converts[j.key];
          ticket := store.PutConvert(j.key, rec.(attempts := rec.attempts + 1));
        }
      case Threw =>
        ticket := store.PersistState();
    }

    /** The signer answered, or the scan found the transaction. */
    method FinishSend(j: Job, txid: string)
      requires store.Valid() && HasRecord(store.Memory(), j)
      modifies store
      ensures store.Valid() && store.View() == SentStore(old(store.View()), j, txid)
    {
      var ticket;
      if j.leg.MintLeg? {
        ticket := store.PutMint(j.key, store.mints[j.key].(status := Minted, mintTxid := Some(txid)));
      } else {
        ticket := store.PutConvert(j.key, store.converts[j.key].(treasuryTxid := Some(txid)));
      }
    }

    /** The `finally` block. */
    method EndAttempt(j: Job)
      modifies this`mintingInFlight, this`convertingInFlight
      ensures Busy() == old(Busy()) - {j}
    {
      if j.leg.MintLeg? {
        mintingInFlight := mintingInFlight - {j.key};
      } else {
        convertingInFlight := convertingInFlight - {j.key};
      }
    }

    /** onReceiptReturned up to its first await: replays and unfinished mints change nothing. */
    method OnReceiptReturned(key: Outpoint, spendTxid: string, tag: Option<Receipt.Tag>, intents: seq<Payout.Listed>)
      returns (bound: Option<IntentId>)
      requires store.Valid() && key in store.mints && Payout.IsListing(store.Memory(), intents)
      modifies store
      ensures store.Valid()
      ensures var chosen := Payout.Choose(cfg.digest, intents, old(store.mints[key].ssqAddress), tag);
              bound == if old(store.mints[key].status) == Minted && chosen.Some? then Some(chosen.value.id) else None
      ensures bound.Some? ==> Payout.BindsTo(old(store.Memory()), key, bound.value)
      ensures store.View() == if bound.Some? then BoundStore(old(store.View()), key, bound.value, spendTxid)
                              else old(store.View())
      ensures store.mints == if bound.None? then old(store.mints)
                             else old(store.mints)[key := old(store.mints)[key].(status := Redeeming,
                                redeemIntentId := bound, receiptSpendTxid := Some(spendTxid))]
    {
      bound := None;
      var rec := store.mints[key];
      if rec.status == Redeeming || rec.status == Redeemed {
        return;
      }
      if rec.status != Minted {
        return;
      }
      var chosen := Payout.Choose(cfg.digest, intents, rec.ssqAddress, tag);
      if chosen.None? {
        return;
      }
      Payout.ChosenMayBind(cfg.digest, store.Memory(), intents, key, tag);
      bound := Some(chosen.value.id);
      var ticket := store.PutMint(key, rec.(status := Redeeming, redeemIntentId := bound,
                                            receiptSpendTxid := Some(spendTxid)));
    }

    /** attemptRelease up to the question for the wallet's history. */
    method BeginRelease(key: Outpoint, deferred: bool) returns (target: Option<Target>)
      requires store.Valid() && key in store.mints
      ensures target == if deferred then None else ReleaseTarget(store.Memory(), key)
      ensures target.Some? <==>
              && !deferred && store.mints[key].redeemIntentId.Some?
              && store.mints[key].redeemIntentId.value in store.intents
              && store.intents[store.mints[key].redeemIntentId.value].btcAddress.Some?
      ensures target.Some? ==> store.mints[key].redeemIntentId == Some(target.value.intent)
                               && store.intents[target.value.intent].btcAddress == Some(target.value.address)
    {
      target := None;
      var rec := store.mints[key];
      if rec.redeemIntentId.None? || rec.redeemIntentId.value !in store.intents {
        return;
      }
      var intent := store.intents[rec.redeemIntentId.value];
      if intent.btcAddress.None? || deferred {
        return;
      }
      target := Some(Target(rec.redeemIntentId.value, intent.btcAddress.value));
    }

    /** The stretch after it: a payment of this intent that the wallet knows is recorded, and
        only otherwise is the wallet asked for one. */
    method CheckHistory(key: Outpoint, id: IntentId, history: seq<WalletEntry>) returns (pay: bool)
      requires store.Valid() && key in store.mints
      modifies store
      ensures store.Valid() && (pay <==> FirstRelease(history, id).None?)
      ensures store.View() == if pay then old(store.View())
                              else RedeemedStore(old(store.View()), key, FirstRelease(history, id).value)
      ensures pay <==> forall e :: e in history ==> !(e.send && e.comment == "redeem:" + id)
      ensures !pay ==>
                exists i :: 0 <= i < |history| && history[i].send && history[i].comment == "redeem:" + id
                            && (forall e :: e in history[..i] ==> !(e.send && e.comment == "redeem:" + id))
                            && store.mints == old(store.mints)[key :=
                                 old(store.mints)[key].(status := Redeemed, releaseTxid := Some(history[i].txid))]
    {
      var i := 0;
      while i < |history| && !IsRelease(history[i], id)
        invariant i <= |history| && FirstRelease(history, id) == FirstRelease(history[i..], id)
        invariant forall e :: e in history[..i] ==> !IsRelease(e, id)
      {
        assert history[i..][1..] == history[i + 1..] && history[..i + 1] == history[..i] + [history[i]];
        i := i + 1;
      }
      pay := i == |history|;
      if !pay {
        FinishRelease(key, history[i].txid);
      }
    }

    /** finalizeRelease up to its first await. */
    method FinishRelease(key: Outpoint, txid: string)
      requires store.Valid() && key in store.mints
      modifies store
      ensures store.Valid() && store.View() == RedeemedStore(old(store.View()), key, txid)
    {
      var ticket := store.PutMint(key, store.mints[key].(status := Redeemed, releaseTxid := Some(txid)));
    }

    /** What follows the record: the intent is noted as received, released or expired. */
    method UpdateIntent(id: IntentId, status: RedeemStatus)
      requires store.Valid() && id in store.intents
      modifies store
      ensures store.Valid() && store.View() == IntentStore(old(store.View()), id, status)
    {
      var ticket := store.PutIntent(id, store.intents[id].(status := status));
    }

    /** A deposit event behind the dedup gate. */
    method OnDepositEvent(key: Outpoint, sats: nat, address: string, confidence: Confidence,
                          intentId: Option<IntentId>) returns (news: bool)
      requires store.Valid()
      modifies store
      ensures store.Valid()
      ensures news <==> IsNews(old(store.Memory()), key, confidence)
      ensures store.View() == if news then DepositStore(old(store.View()), key, sats, address, confidence, intentId)
                              else old(store.View())
      ensures news <==>
              || key !in old(store.deposits)
              || (old(store.deposits)[key].confidence == Mempool && confidence != Mempool)
              || (old(store.deposits)[key].confidence == Confirmed && confidence == Finalized)
      ensures news ==> store.deposits == old(store.deposits)[key :=
                if key in old(store.deposits) then old(store.deposits)[key].(confidence := confidence)
                else Deposit(sats, address, confidence, intentId, None)]
    {
      if key in store.deposits && Rank(confidence) <= Rank(store.deposits[key].confidence) {
        return false;
      }
      var dep := if key in store.deposits then store.deposits[key]
                 else Deposit(sats, address, confidence, intentId, None);
      dep := dep.(confidence := confidence);
      var ticket := store.PutDeposit(key, dep);
      return true;
    }

    /** checkPorInvariant: halted exactly while the readable vault does not cover the
        receipts outstanding; an unreadable vault changes nothing. */
    method CheckPorInvariant(vault: Option<(nat, nat)>)
      modifies this`porHalted
      ensures vault.None? ==> porHalted == old(porHalted)
      ensures vault.Some? ==> (porHalted <==> vault.value.0 + vault.value.1 < Outstanding(store.mints))
    {
      if vault.None? {
        return;
      }
      var outstanding := 0;
      var rest := store.mints;
      while rest != map[]
        invariant outstanding + Outstanding(rest) == Outstanding(store.mints)
        decreases |rest|
      {
        var k :| k in rest;
        OutstandingSplit(rest, k);
        if rest[k].status == Minted || rest[k].status == Minting {
          outstanding := outstanding + rest[k].sats;
        }
        assert |rest - {k}| < |rest|;
        rest := rest - {k};
      }
      var covered := vault.value.0 + vault.value.1 >= outstanding;
      if !covered && !porHalted {
        porHalted := true;
      } else if covered && porHalted {
        porHalted := false;
      }
    }
  }

  // ---- sums over records ----

  /** Sats of a record that counts as an outstanding receipt. */
  function OutstandingOf(r: MintRecord): nat {
    if r.status == Minting || r.status == Minted then r.sats else 0
  }

  ghost function Outstanding(m: map<Outpoint, MintRecord>): nat {
    SumBy(m, OutstandingOf)
  }

  lemma OutstandingSplit(m: map<Outpoint, MintRecord>, k: Outpoint)
    requires k in m
    ensures Outstanding(m) == OutstandingOf(m[k]) + Outstanding(m - {k})
  {
    SumSplit(m, OutstandingOf, k);
  }
}
