/** The gateway's JSON-file store of store.ts: the in-memory state, the chain of serialized
    writes behind it, and the claims that make minting and converting once-only. */
module Store {
  import opened ByteStrings
  import Receipt

  /** A deposit outpoint, `txid:vout`: the idempotency key of every leg. */
  datatype Outpoint = Outpoint(txid: string, vout: nat)
  type IntentId = string

  datatype Confidence = Mempool | Confirmed | Finalized
  datatype HeldReason = Underpay | BadRecipient
  datatype MintStatus = Minting | Minted | Redeeming | Redeemed
  datatype IntentKind = DepositIntent | RedeemIntent
  datatype RedeemStatus = AwaitingReceipt | ReceiptReceived | Released | Expired

  /** `btcAddress` is the deposit address or the payout address; `status` is followed for
      redeem intents only. */
  datatype Intent = Intent(kind: IntentKind, ssqAddress: string, btcAddress: Option<string>, createdAt: int,
                           status: RedeemStatus)
  datatype Deposit = Deposit(sats: nat, address: string, confidence: Confidence, intentId: Option<IntentId>,
                             held: Option<HeldReason>)
  datatype MintRecord = MintRecord(ssqAddress: string, sats: nat, tag: Receipt.Tag, status: MintStatus,
                                   claimHeight: nat, attempts: nat, mintTxid: Option<string>,
                                   redeemIntentId: Option<IntentId>, receiptSpendTxid: Option<string>,
                                   releaseTxid: Option<string>)
  datatype ConvertRecord = ConvertRecord(sats: nat, tag: Receipt.Tag, claimHeight: nat, attempts: nat,
                                         treasuryTxid: Option<string>, converted: bool)

  /** The state that is written to disk. */
  datatype Db = Db(intents: map<IntentId, Intent>, deposits: map<Outpoint, Deposit>,
                   mints: map<Outpoint, MintRecord>, converts: map<Outpoint, ConvertRecord>,
                   soqScanHeight: Option<nat>)

  const EMPTY_DB: Db := Db(map[], map[], map[], map[], None)

  /** The store as the rest of the gateway sees it: the memory, every snapshot handed to
      the save chain since loading, how many of them are on disk, what was loaded, and
      whether a write has failed (which stops the chain for good). */
  datatype StoreState = StoreState(db: Db, log: seq<Db>, written: nat, base: Db, failed: bool)

  /** Snapshot 0 is what was loaded, then the log, then the memory. */
  function Snap(s: StoreState, i: nat): Db {
    if i == 0 then s.base else if i <= |s.log| then s.log[i - 1] else s.db
  }

  function Disk(s: StoreState): Db {
    Snap(s, s.written)
  }

  function Loaded(file: Db): StoreState {
    StoreState(file, [], 0, file, false)
  }

  /** persist(): snapshot now, write later; the caller waits for its place in the log. */
  function Persist(s: StoreState): StoreState {
    s.(log := s.log + [s.db])
  }

  /** A caller that waits for the last snapshot holds this ticket. */
  function Ticket(s: StoreState): nat {
    |s.log|
  }

  function WithMint(s: StoreState, key: Outpoint, rec: MintRecord): StoreState {
    Persist(s.(db := s.db.(mints := s.db.mints[key := rec])))
  }

  function WithConvert(s: StoreState, key: Outpoint, rec: ConvertRecord): StoreState {
    Persist(s.(db := s.db.(converts := s.db.converts[key := rec])))
  }

  function WithIntent(s: StoreState, id: IntentId, intent: Intent): StoreState {
    Persist(s.(db := s.db.(intents := s.db.intents[id := intent])))
  }

  function WithDeposit(s: StoreState, key: Outpoint, dep: Deposit): StoreState {
    Persist(s.(db := s.db.(deposits := s.db.deposits[key := dep])))
  }

  class GatewayStore {
    var intents: map<IntentId, Intent>
    var deposits: map<Outpoint, Deposit>
    var mints: map<Outpoint, MintRecord>
    var converts: map<Outpoint, ConvertRecord>
    var soqScanHeight: Option<nat>
    /** What `load` read. */
    var loaded: Db
    /** saveChain: the snapshots queued since `load`, and how many were renamed into place. */
    var saves: seq<Db>
    var written: nat
    var failed: bool

    ghost predicate Valid()
      reads this
    {
      written <= |saves|
    }

    function Memory(): Db
      reads this
    {
      Db(intents, deposits, mints, converts, soqScanHeight)
    }

    function View(): StoreState
      reads this
    {
      StoreState(Memory(), saves, written, loaded, failed)
    }

    constructor (file: Db)
      ensures Valid() && View() == Loaded(file)
    {
      intents, deposits, mints, converts := file.intents, file.deposits, file.mints, file.converts;
      soqScanHeight := file.soqScanHeight;
      loaded, saves, written, failed := file, [], 0, false;
    }

    /** Start again from the file: what a crash and restart leave. */
    method Reload()
      requires Valid()
      modifies this
      ensures Valid() && View() == Loaded(old(Disk(View())))
    {
      var file := if written == 0 then loaded else saves[written - 1];
      intents, deposits, mints, converts := file.intents, file.deposits, file.mints, file.converts;
      soqScanHeight := file.soqScanHeight;
      loaded, saves, written, failed := file, [], 0, false;
    }

    method PersistState() returns (ticket: nat)
      requires Valid()
      modifies this`saves
      ensures Valid() && View() == Persist(old(View())) && ticket == Ticket(View())
    {
      var snapshot := Memory();
      saves := saves + [snapshot];
      ticket := |saves|;
    }

    /** The next queued write: rename into place, or fail and never write again. */
    method WriteNext(ok: bool) returns (wrote: bool)
      requires Valid()
      modifies this`written, this`failed
      ensures Valid()
      ensures wrote <==> !old(failed) && old(written) < |saves| && ok
      ensures View() == old(View()).(written := if wrote then old(written) + 1 else old(written),
                                     failed := old(failed) || (old(written) < |saves| && !ok))
      ensures wrote ==> Disk(View()) == saves[old(written)]
    {
      wrote := false;
      if !failed && written < |saves| {
        if ok {
          written := written + 1;
          wrote := true;
        } else {
          failed := true;
        }
      }
    }

    /** claimMint: false if any record exists for the key, whatever its status. */
    method ClaimMint(key: Outpoint, rec: MintRecord) returns (claimed: bool, ticket: nat)
      requires Valid()
      modifies this
      ensures Valid()
      ensures claimed <==> key !in old(mints)
      ensures claimed ==> View() == WithMint(old(View()), key, rec) && ticket == Ticket(View())
      ensures !claimed ==> View() == old(View())
    {
      if key in mints {
        return false, 0;
      }
      mints := mints[key := rec];
      ticket := PersistState();
      claimed := true;
    }

    method PutMint(key: Outpoint, rec: MintRecord) returns (ticket: nat)
      requires Valid()
      modifies this
      ensures Valid() && View() == WithMint(old(View()), key, rec) && ticket == Ticket(View())
    {
      mints := mints[key := rec];
      ticket := PersistState();
    }

    /** claimConvert: the same contract as claimMint. */
    method ClaimConvert(key: Outpoint, rec: ConvertRecord) returns (claimed: bool, ticket: nat)
      requires Valid()
      modifies this
      ensures Valid()
      ensures claimed <==> key !in old(converts)
      ensures claimed ==> View() == WithConvert(old(View()), key, rec) && ticket == Ticket(View())
      ensures !claimed ==> View() == old(View())
    {
      if key in converts {
        return false, 0;
      }
      converts := converts[key := rec];
      ticket := PersistState();
      claimed := true;
    }

    method PutConvert(key: Outpoint, rec: ConvertRecord) returns (ticket: nat)
      requires Valid()
      modifies this
      ensures Valid() && View() == WithConvert(old(View()), key, rec) && ticket == Ticket(View())
    {
      converts := converts[key := rec];
      ticket := PersistState();
    }

    method PutIntent(id: IntentId, intent: Intent) returns (ticket: nat)
      requires Valid()
      modifies this
      ensures Valid() && View() == WithIntent(old(View()), id, intent) && ticket == Ticket(View())
    {
      intents := intents[id := intent];
      ticket := PersistState();
    }

    method PutDeposit(key: Outpoint, dep: Deposit) returns (ticket: nat)
      requires Valid()
      modifies this
      ensures Valid() && View() == WithDeposit(old(View()), key, dep) && ticket == Ticket(View())
    {
      deposits := deposits[key := dep];
      ticket := PersistState();
    }

    /** findMintByCarrier: the carrier is output 0 of the mint transaction. */
    method FindMintByCarrier(txid: string, vout: nat) returns (found: Option<Outpoint>)
      ensures found.Some? ==> vout == 0 && found.value in mints && mints[found.value].mintTxid == Some(txid)
      ensures found.None? ==> vout != 0 || forall k :: k in mints ==> mints[k].mintTxid != Some(txid)
    {
      if vout != 0 {
        return None;
      }
      var rest := mints.Keys;
      while rest != {}
        invariant rest <= mints.Keys
        invariant forall k :: k in mints && k !in rest ==> mints[k].mintTxid != Some(txid)
        decreases |rest|
      {
        var k :| k in rest;
        if mints[k].mintTxid == Some(txid) {
          return Some(k);
        }
        rest := rest - {k};
      }
      return None;
    }
  }
}
