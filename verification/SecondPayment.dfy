/** Why the guards are there: once a record that has been paid is minted again, in memory or on
    disk, the return spend that the chain still shows binds it to a new registration, and it
    is paid again. */
module SecondPayment {
  import opened ByteStrings
  import opened Store
  import opened Gateway
  import opened MoneyLoop
  import opened StoreOrder
  import opened MintSafety
  import opened MintEvidence
  import opened ReleaseSafety
  import opened Runs
  import Payout
  import Receipt
  import Scan

  /** The books say that the receipt is minted, and the chain that it came back, for `address`
      if the spend commits to one. */
  ghost predicate Rebindable(w: World, db: Db, key: Outpoint, height: nat, tx: Scan.Tx, address: string) {
    && key in db.mints && db.mints[key].status == Minted && db.mints[key].mintTxid.Some?
    && height < |w.chain.blocks| && tx in w.chain.blocks[height]
    && Returns(w.cfg, db.mints[key].mintTxid.value, tx) && Honours(w.cfg, tx, address)
  }

  /** Nothing of the intent's has been asked for or paid. */
  ghost predicate Unused(w: World, id: IntentId) {
    (forall p :: 0 <= p < |w.pays| ==> w.pays[p].intent != id) && (forall e :: e in w.wallet ==> !IsRelease(e, id))
  }

  /** Idle, with a store that can go on. */
  predicate Quiet(w: World) {
    w.release == Idle && w.store.written <= |w.store.log|
  }

  // ---- from the return spend to the payment ----

  /** The release task has written its claim, or given up on writing it, and may go on. */
  predicate Claimed(w: World, key: Outpoint, id: IntentId, address: string, sats: nat) {
    && (w.release == Ready(key) || w.release == Idle)
    && IsReleasing(w.store.db, key)
    && w.store.db.mints[key].redeemIntentId == Some(id) && w.store.db.mints[key].sats == sats
    && id in w.store.db.intents && w.store.db.intents[id].btcAddress == Some(address)
    && w.store.written <= |w.store.log|
    && (!w.store.failed ==> Late(Disk(w.store), key))
  }

  lemma BindStep(w: World, key: Outpoint, height: nat, tx: Scan.Tx, intents: seq<Payout.Listed>)
    requires Quiet(w) && MayBind(w, key, height, tx, intents)
    ensures key in w.store.db.mints
    ensures var l := ReceiptReturned(key, height, tx, intents);
            var id := ChoiceFor(w.cfg, w.store.db.mints[key].ssqAddress, tx, intents).value.id;
            && CanTake(true, true, w, l)
            && var s' := BoundStore(w.store, key, id, tx.txid);
               Next(w, l) == w.(store := s', release := Noting(key, id, ReceiptReceived, |s'.log|))
  {
    hide ChoiceFor, BoundStore, Returns, Payout.IsListing;
  }

  /** What binding has left to be written. */
  predicate Binding(w: World, key: Outpoint, id: IntentId, address: string, sats: nat) {
    && w.release == Noting(key, id, ReceiptReceived, |w.store.log|)
    && IsReleasing(w.store.db, key)
    && w.store.db.mints[key].redeemIntentId == Some(id) && w.store.db.mints[key].sats == sats
    && id in w.store.db.intents && w.store.db.intents[id].btcAddress == Some(address)
    && w.store.written <= |w.store.log| && w.store.log != [] && w.store.log[|w.store.log| - 1] == w.store.db
  }

  lemma NoteStep(w: World, key: Outpoint, id: IntentId, address: string, sats: nat)
    requires Binding(w, key, id, address, sats) && !w.store.failed && w.store.written == |w.store.log|
    ensures CanTake(true, true, w, NoteIntent)
    ensures var w' := Next(w, NoteIntent);
            && Claimed(w', key, id, address, sats)
            && w' == w.(store := IntentStore(w.store, id, ReceiptReceived), release := Ready(key))
  {
  }

  lemma GiveUpStep(w: World, key: Outpoint, id: IntentId, address: string, sats: nat)
    requires Binding(w, key, id, address, sats) && w.store.failed
    ensures CanTake(true, true, w, GiveUpNoting) && Next(w, GiveUpNoting) == w.(release := Idle)
    ensures Claimed(Next(w, GiveUpNoting), key, id, address, sats)
  {
  }

  lemma BeginStep(w: World, key: Outpoint, id: IntentId, address: string, sats: nat)
    requires Claimed(w, key, id, address, sats) && Unused(w, id)
    ensures var l := BeginRelease(key);
            CanTake(true, true, w, l) && Next(w, l) == w.(release := Checking(key, Target(id, address), |w.wallet|))
  {
  }

  lemma AskStep(timely: bool, saved: bool, w: World, key: Outpoint, id: IntentId, address: string, sats: nat)
    requires w.release == Checking(key, Target(id, address), |w.wallet|) && Unused(w, id)
    requires key in w.store.db.mints && w.store.db.mints[key].sats == sats && (saved ==> Late(Disk(w.store), key))
    ensures var l := HistoryArrives(|w.wallet|);
            && CanTake(timely, saved, w, l)
            && Next(w, l) == w.(pays := w.pays + [PayCall(key, id, address, sats, Unanswered)],
                                release := Paying(key, |w.pays|))
  {
    hide IsRelease, Late;
    assert w.wallet[..|w.wallet|] == w.wallet;
    assert Already(w, |w.wallet|).None?;
  }

  lemma PayStep(w: World, pays: seq<PayCall>, p: PayCall, txid: string)
    requires w.pays == pays + [p] && p.state.Unanswered?
    ensures var l := WalletSends(|pays|, txid);
            && CanTake(true, true, w, l)
            && Next(w, l) == w.(pays := pays + [p.(state := Sent(txid))],
                                wallet := w.wallet + [WalletEntry(true, Comment(p.intent), txid)])
  {
    var sent := p.(state := Sent(txid));
    assert w.pays[|pays| := sent] == pays + [sent];
  }

  /** A claimed release of a fresh intent is paid. */
  lemma PayClaimed(timely: bool, saved: bool, ws: seq<World>, ls: seq<Step>, key: Outpoint, id: IntentId,
                   address: string, sats: nat, txid: string) returns (ws': seq<World>, ls': seq<Step>)
    requires ws != [] && IsRunUnder(timely, saved, ws, ls)
    requires Claimed(Last(ws), key, id, address, sats) && Unused(Last(ws), id)
    requires saved ==> !Last(ws).store.failed
    ensures ws <= ws' && ws' != [] && IsRunUnder(timely, saved, ws', ls')
    ensures var w := Last(ws);
            Last(ws') == w.(pays := w.pays + [PayCall(key, id, address, sats, Sent(txid))],
                            wallet := w.wallet + [WalletEntry(true, Comment(id), txid)],
                            release := Paying(key, |w.pays|))
  {
    hide IsRunUnder, Next, Unused, Comment, CanTake, Late, Disk;
    var w := Last(ws);
    BeginStep(w, key, id, address, sats);
    Implies(timely, saved, w, BeginRelease(key));
    ws', ls' := Take(timely, saved, ws, ls, BeginRelease(key));
    StillUnused(w, Last(ws'), id);
    AskStep(timely, saved, Last(ws'), key, id, address, sats);
    ws', ls' := Take(timely, saved, ws', ls', HistoryArrives(|w.wallet|));
    PayStep(Last(ws'), w.pays, PayCall(key, id, address, sats, Unanswered), txid);
    Implies(timely, saved, Last(ws'), WalletSends(|w.pays|, txid));
    ws', ls' := Take(timely, saved, ws', ls', WalletSends(|w.pays|, txid));
  }

  lemma StillUnused(w: World, w': World, id: IntentId)
    requires Unused(w, id) && w'.pays == w.pays && w'.wallet == w.wallet
    ensures Unused(w', id)
  {
  }

  /** The release leg as it should go, and as it goes without a working disk, from the returned
      receipt to the payment. */
  lemma BindAndPay(timely: bool, saved: bool, ws: seq<World>, ls: seq<Step>, key: Outpoint, height: nat, tx: Scan.Tx,
                   intents: seq<Payout.Listed>, id: IntentId, address: string, txid: string)
    returns (ws': seq<World>, ls': seq<Step>)
    requires ws != [] && IsRunUnder(timely, saved, ws, ls)
    requires Quiet(Last(ws)) && MayBind(Last(ws), key, height, tx, intents)
    requires var w := Last(ws);
             && ChoiceFor(w.cfg, w.store.db.mints[key].ssqAddress, tx, intents).value.id == id
             && id in w.store.db.intents && w.store.db.intents[id].btcAddress == Some(address)
             && Unused(w, id) && (saved ==> !w.store.failed)
    ensures ws <= ws' && ws' != [] && IsRunUnder(timely, saved, ws', ls')
    ensures var w, w' := Last(ws), Last(ws');
            && w' == w.(store := w'.store,
                        pays := w.pays + [PayCall(key, id, address, w.store.db.mints[key].sats, Sent(txid))],
                        wallet := w.wallet + [WalletEntry(true, Comment(id), txid)], release := Paying(key, |w.pays|))
            && w'.store == PaidStore(w.store, key, id, tx.txid)
  {
    hide IsRunUnder, Next, Unused, MayBind, ChoiceFor, Comment, Claimed, CanTake;
    var w := Last(ws);
    BindStep(w, key, height, tx, intents);
    var sats := w.store.db.mints[key].sats;
    Implies(timely, saved, w, ReceiptReturned(key, height, tx, intents));
    ws', ls' := Take(timely, saved, ws, ls, ReceiptReturned(key, height, tx, intents));
    if w.store.failed {
      GiveUpStep(Last(ws'), key, id, address, sats);
      Implies(timely, saved, Last(ws'), GiveUpNoting);
      ws', ls' := Take(timely, saved, ws', ls', GiveUpNoting);
    } else {
      ws', ls' := Flush(timely, saved, ws', ls');
      NoteStep(Last(ws'), key, id, address, sats);
      Implies(timely, saved, Last(ws'), NoteIntent);
      ws', ls' := Take(timely, saved, ws', ls', NoteIntent);
    }
    StillUnused(w, Last(ws'), id);
    ws', ls' := PayClaimed(timely, saved, ws', ls', key, id, address, sats, txid);
  }

  lemma Implies(timely: bool, saved: bool, w: World, l: Step)
    requires CanTake(true, true, w, l)
    ensures CanTake(timely, saved, w, l)
  {
  }

  /** The claim is on disk and the intent noted, or neither if the disk has failed. */
  function PaidStore(s: StoreState, key: Outpoint, id: IntentId, spendTxid: string): StoreState
    requires key in s.db.mints && id in s.db.intents
  {
    var bound := BoundStore(s, key, id, spendTxid);
    if s.failed then bound else IntentStore(bound.(written := |bound.log|), id, ReceiptReceived)
  }

  // ---- a quiet moment ----

  /** A good disk takes the memory, and the restart finds it there. */
  lemma Restart(timely: bool, saved: bool, ws: seq<World>, ls: seq<Step>) returns (ws': seq<World>, ls': seq<Step>)
    requires ws != [] && IsRunUnder(timely, saved, ws, ls)
    ensures ws <= ws' && ws' != [] && IsRunUnder(timely, saved, ws', ls')
    ensures Last(ws') == Last(ws).(store := Loaded(Disk(Last(ws).store)), claiming := {}, first := map[],
                                   attempts := map[], release := Idle)
  {
    hide IsRunUnder, Disk;
    ws', ls' := Take(timely, saved, ws, ls, CrashAndReload);
  }

  lemma SaveAndRestart(timely: bool, saved: bool, ws: seq<World>, ls: seq<Step>)
    returns (ws': seq<World>, ls': seq<Step>)
    requires ws != [] && IsRunUnder(timely, saved, ws, ls)
    requires !Last(ws).store.failed && Last(ws).store.written <= |Last(ws).store.log|
    ensures ws <= ws' && ws' != [] && IsRunUnder(timely, saved, ws', ls')
    ensures Last(ws') == Last(ws).(store := Loaded(Last(ws).store.db), claiming := {}, first := map[],
                                   attempts := map[], release := Idle)
  {
    hide IsRunUnder;
    ws', ls' := Take(timely, saved, ws, ls, PersistAgain);
    ws', ls' := Flush(timely, saved, ws', ls');
    ws', ls' := Restart(timely, saved, ws', ls');
  }

  /** Without a disk the release task comes to rest by itself. */
  lemma ComeToRest(timely: bool, saved: bool, ws: seq<World>, ls: seq<Step>)
    returns (ws': seq<World>, ls': seq<Step>)
    requires ws != [] && IsRunUnder(timely, saved, ws, ls)
    requires Last(ws).store.failed && Last(ws).store.written <= |Last(ws).store.log|
    ensures ws <= ws' && ws' != [] && IsRunUnder(timely, saved, ws', ls') && Quiet(Last(ws'))
    ensures Last(ws') == Last(ws).(store := Last(ws').store, release := Idle)
    ensures Last(ws').store.db == Last(ws).store.db
  {
    hide IsRunUnder, CanTake, Next;
    ws', ls' := ws, ls;
    if Last(ws).release != Idle {
      var l := RestStep(timely, saved, Last(ws));
      ws', ls' := Take(timely, saved, ws, ls, l);
    }
  }

  lemma RestStep(timely: bool, saved: bool, w: World) returns (l: Step)
    requires w.release != Idle && w.store.failed && w.store.written <= |w.store.log|
    ensures CanTake(timely, saved, w, l) && Quiet(Next(w, l))
    ensures Next(w, l) == w.(store := Next(w, l).store, release := Idle) && Next(w, l).store.db == w.store.db
  {
    hide Recovers, Already, Disk;
    l := if w.release.Noting? then GiveUpNoting else if w.release.Ready? then DeferRelease else ReleaseFails;
  }

  /** The same world as far as the outside and the records are concerned. */
  ghost predicate SameOutside(w: World, w': World) {
    w'.cfg == w.cfg && w'.chain == w.chain && w'.pays == w.pays && w'.wallet == w.wallet
  }

  lemma ReachQuiet(timely: bool, saved: bool, ws: seq<World>, ls: seq<Step>, db: Db)
    returns (ws': seq<World>, ls': seq<Step>)
    requires ws != [] && IsRunUnder(timely, saved, ws, ls) && Last(ws).store.written <= |Last(ws).store.log|
    requires db == Disk(Last(ws).store) || (db == Last(ws).store.db && (saved ==> !Last(ws).store.failed))
    ensures ws <= ws' && ws' != [] && IsRunUnder(timely, saved, ws', ls')
    ensures Quiet(Last(ws')) && SameOutside(Last(ws), Last(ws')) && Last(ws').store.db == db
    ensures saved ==> !Last(ws').store.failed
  {
    hide IsRunUnder;
    if db == Disk(Last(ws).store) {
      ws', ls' := Restart(timely, saved, ws, ls);
    } else if !Last(ws).store.failed {
      ws', ls' := SaveAndRestart(timely, saved, ws, ls);
    } else {
      ws', ls' := ComeToRest(timely, saved, ws, ls);
    }
  }

  // ---- a new registration ----

  function Open(intents: map<IntentId, Intent>): set<IntentId> {
    set id | id in intents && intents[id].status == AwaitingReceipt
  }

  lemma ExpireStep(timely: bool, saved: bool, w: World, id: IntentId)
    requires id in Open(w.store.db.intents)
    ensures id in w.store.db.intents
    ensures CanTake(timely, saved, w, ExpireIntent(id))
    ensures Next(w, ExpireIntent(id)) == w.(store := IntentStore(w.store, id, Expired))
  {
    hide Recovers, Already, Disk;
  }

  /** The open registrations expire. */
  lemma {:induction false} ExpireAll(timely: bool, saved: bool, ws: seq<World>, ls: seq<Step>)
    returns (ws': seq<World>, ls': seq<Step>)
    requires ws != [] && IsRunUnder(timely, saved, ws, ls) && Quiet(Last(ws))
    ensures ws <= ws' && ws' != [] && IsRunUnder(timely, saved, ws', ls') && Quiet(Last(ws'))
    ensures SameOutside(Last(ws), Last(ws')) && Last(ws').store.failed == Last(ws).store.failed
    ensures Last(ws').store.db.mints == Last(ws).store.db.mints && Open(Last(ws').store.db.intents) == {}
    decreases |Open(Last(ws).store.db.intents)|
  {
    hide IsRunUnder, CanTake, Next;
    ws', ls' := ws, ls;
    var open := Open(Last(ws).store.db.intents);
    if open != {} {
      var id :| id in open;
      ExpireStep(timely, saved, Last(ws), id);
      ws', ls' := Take(timely, saved, ws, ls, ExpireIntent(id));
      assert Open(Last(ws').store.db.intents) == open - {id};
      ws', ls' := ExpireAll(timely, saved, ws', ls');
    }
  }

  lemma {:induction false} Longest(ids: set<string>) returns (n: nat)
    ensures forall id :: id in ids ==> |id| <= n
  {
    if ids == {} {
      n := 0;
    } else {
      var id :| id in ids;
      n := Longest(ids - {id});
      n := if |id| > n then |id| else n;
    }
  }

  lemma {:induction false} Newest(intents: map<IntentId, Intent>, ids: set<IntentId>) returns (t: int)
    requires ids <= intents.Keys
    ensures forall id :: id in ids ==> intents[id].createdAt <= t
  {
    if ids == {} {
      t := 0;
    } else {
      var id :| id in ids;
      t := Newest(intents, ids - {id});
      t := if intents[id].createdAt > t then intents[id].createdAt else t;
    }
  }

  function Text(n: nat): (s: string)
    ensures |s| == n
  {
    if n == 0 then "" else "x" + Text(n - 1)
  }

  /** An id that has never been used. */
  lemma FreshId(w: World) returns (id: IntentId)
    ensures id !in w.store.db.intents && Unused(w, id)
  {
    var paid := set p | p in w.pays :: p.intent;
    var comments := set e | e in w.wallet :: e.comment;
    var n := Longest(w.store.db.intents.Keys + paid + comments);
    id := Text(n + 1);
    forall p | 0 <= p < |w.pays| ensures w.pays[p].intent != id {
      assert w.pays[p] in w.pays && w.pays[p].intent in paid;
    }
    forall e | e in w.wallet ensures !IsRelease(e, id) {
      assert e.comment in comments && |Comment(id)| > n;
    }
  }

  /** The holder registers `address`, and nothing else is open or newer. */
  ghost predicate Registered(w: World, id: IntentId, holder: string, address: string) {
    && id in w.store.db.intents && Unused(w, id)
    && var intent := w.store.db.intents[id];
       && intent.kind == RedeemIntent && intent.ssqAddress == holder && intent.btcAddress == Some(address)
       && intent.status == AwaitingReceipt
       && forall other :: other in w.store.db.intents && other != id ==>
                            && w.store.db.intents[other].createdAt < intent.createdAt
                            && w.store.db.intents[other].status != AwaitingReceipt
  }

  lemma Register(timely: bool, saved: bool, ws: seq<World>, ls: seq<Step>, holder: string, address: string)
    returns (ws': seq<World>, ls': seq<Step>, id: IntentId)
    requires ws != [] && IsRunUnder(timely, saved, ws, ls) && Quiet(Last(ws))
    ensures ws <= ws' && ws' != [] && IsRunUnder(timely, saved, ws', ls') && Quiet(Last(ws'))
    ensures SameOutside(Last(ws), Last(ws')) && Last(ws').store.failed == Last(ws).store.failed
    ensures Last(ws').store.db.mints == Last(ws).store.db.mints && Registered(Last(ws'), id, holder, address)
  {
    hide IsRunUnder, Unused;
    ws', ls' := ExpireAll(timely, saved, ws, ls);
    var w := Last(ws');
    id := FreshId(w);
    var t := Newest(w.store.db.intents, w.store.db.intents.Keys);
    forall other | other in w.store.db.intents ensures w.store.db.intents[other].status != AwaitingReceipt {
      assert other !in Open(w.store.db.intents);
    }
    ws', ls' := Take(timely, saved, ws', ls',
                     AddIntent(id, Intent(RedeemIntent, holder, Some(address), t + 1, AwaitingReceipt)));
    StillUnused(w, Last(ws'), id);
  }

  /** The new registration is the one that the return spend chooses. */
  lemma RegisteredIsChosen(w: World, key: Outpoint, height: nat, tx: Scan.Tx, address: string, id: IntentId)
    returns (intents: seq<Payout.Listed>)
    requires Rebindable(w, w.store.db, key, height, tx, address)
    requires Registered(w, id, w.store.db.mints[key].ssqAddress, address)
    ensures MayBind(w, key, height, tx, intents)
    ensures ChoiceFor(w.cfg, w.store.db.mints[key].ssqAddress, tx, intents).value.id == id
  {
    hide Payout.Choose, Unused, Scan.FirstTag, Payout.IsListing, Returns;
    intents := Payout.ListingExists(w.store.db);
    Payout.NewestIsChosen(w.cfg.digest, w.store.db, intents, id, w.store.db.mints[key].ssqAddress,
                          Scan.FirstTag(tx.outputs));
  }

  // ---- the theorem ----

  /** A reachable world with a payment for a record that is minted again, in memory or on disk,
      goes on to a second payment of the same record to the same address; the first guard is
      kept from here on, and with a working disk so is the second. */
  lemma PaidAgain(timely: bool, saved: bool, ws: seq<World>, ls: seq<Step>, p: nat, height: nat, tx: Scan.Tx, db: Db)
    returns (ws': seq<World>, ls': seq<Step>)
    requires ws != [] && IsRunUnder(timely, saved, ws, ls)
    requires p < |Last(ws).pays| && Last(ws).pays[p].state.Sent?
    requires db == Disk(Last(ws).store) || (db == Last(ws).store.db && (saved ==> !Last(ws).store.failed))
    requires Rebindable(Last(ws), db, Last(ws).pays[p].key, height, tx, Last(ws).pays[p].address)
    ensures ws <= ws' && ws' != [] && IsRunUnder(timely, saved, ws', ls')
    ensures var pays, q := Last(ws').pays, |Last(ws).pays|;
            && |pays| == q + 1 && pays[p] == Last(ws).pays[p]
            && pays[q].state.Sent? && pays[q].key == pays[p].key && pays[q].address == pays[p].address
  {
    hide IsRunUnder, Rebindable, Registered;
    var key, address := Last(ws).pays[p].key, Last(ws).pays[p].address;
    WrittenInBounds(timely, saved, ws, ls);
    ws', ls' := ReachQuiet(timely, saved, ws, ls, db);
    StillRebindable(Last(ws), Last(ws'), db, key, height, tx, address);
    var w := Last(ws');
    var holder := db.mints[key].ssqAddress;
    var id;
    ws', ls', id := Register(timely, saved, ws', ls', holder, address);
    StillRebindable(w, Last(ws'), Last(ws').store.db, key, height, tx, address);
    var intents := RegisteredIsChosen(Last(ws'), key, height, tx, address, id);
    RegisteredIsUnused(Last(ws'), id, holder, address);
    ws', ls' := BindAndPay(timely, saved, ws', ls', key, height, tx, intents, id, address, "again");
  }

  lemma RegisteredIsUnused(w: World, id: IntentId, holder: string, address: string)
    requires Registered(w, id, holder, address)
    ensures Unused(w, id) && id in w.store.db.intents && w.store.db.intents[id].btcAddress == Some(address)
  {
  }

  lemma WrittenInBounds(timely: bool, saved: bool, ws: seq<World>, ls: seq<Step>)
    requires ws != [] && IsRunUnder(timely, saved, ws, ls)
    ensures Last(ws).store.written <= |Last(ws).store.log|
  {
    hide IsRun, CandidatesOk, CallsOk, OneLive, StagesOk, Ordered, Sound, HeightsBelow;
    RunInv(ws, ls, |ws| - 1);
  }

  lemma StillRebindable(w: World, w': World, db: Db, key: Outpoint, height: nat, tx: Scan.Tx, address: string)
    requires w'.cfg == w.cfg && w'.chain == w.chain
    requires exists was: Db :: was.mints == db.mints && Rebindable(w, was, key, height, tx, address)
    ensures Rebindable(w', db, key, height, tx, address) && key in db.mints
  {
  }

  // ---- where its hypotheses come from ----

  ghost predicate IsTagged(tx: Scan.Tx, chain: Scan.Chain, tag: Receipt.Tag) {
    Scan.OnChain(tx, chain) && Scan.Carries(tx, ScriptOf(tag))
  }

  /** Nobody has put a copy of the gateway's tag into another transaction. */
  ghost predicate MintedByOne(chain: Scan.Chain, tag: Receipt.Tag) {
    forall a, b :: IsTagged(a, chain, tag) && IsTagged(b, chain, tag) ==> a.txid == b.txid
  }

  /** Then the spend that the payment was made against still returns the record's receipt. */
  lemma PaidMeansReturned(ws: seq<World>, ls: seq<Step>, p: nat, db: Db) returns (height: nat, tx: Scan.Tx)
    requires ws != [] && IsRun(ws, ls) && p < |Last(ws).pays|
    requires db == Disk(Last(ws).store) || db == Last(ws).store.db
    requires var pay := Last(ws).pays[p];
             && pay.key in db.mints && db.mints[pay.key].status == Minted && db.mints[pay.key].sats == pay.sats
             && MintedByOne(Last(ws).chain, TagFor(Job(MintLeg, pay.key), pay.sats))
    ensures Rebindable(Last(ws), db, Last(ws).pays[p].key, height, tx, Last(ws).pays[p].address)
  {
    hide IsRun, Scan.OnChain, Scan.Carries, ScriptOf, Honours, Returns, TagFor, Snap;
    var w, pay := Last(ws), Last(ws).pays[p];
    var tag := TagFor(Job(MintLeg, pay.key), pay.sats);
    RecordedTag(ws, ls, db, pay.key);
    MintedIsOnChain(ws, ls, |ws| - 1, pay.key);
    PaidAgainstReturn(ws, ls, |ws| - 1, p);
    var own :| Scan.OnChain(own, w.chain) && Some(own.txid) == db.mints[pay.key].mintTxid
               && Scan.Carries(own, ScriptOf(tag));
    var mint;
    mint, tx :| ReturnedBy(w.cfg, w.chain, tag, pay.address, mint, tx);
    assert IsTagged(mint, w.chain, tag) && IsTagged(own, w.chain, tag);
    assert Scan.MinedSince(tx, w.chain, 0);
    height :| 0 <= height < |w.chain.blocks| && tx in w.chain.blocks[height];
  }

  lemma RecordedTag(ws: seq<World>, ls: seq<Step>, db: Db, key: Outpoint)
    requires ws != [] && IsRun(ws, ls) && (db == Disk(Last(ws).store) || db == Last(ws).store.db) && key in db.mints
    ensures db.mints[key].tag == TagFor(Job(MintLeg, key), db.mints[key].sats)
  {
    hide IsRun, CandidatesOk, CallsOk, OneLive, StagesOk, Ordered, HeightsBelow, TagFor, Snap;
    var w := Last(ws);
    RunInv(ws, ls, |ws| - 1);
    DiskKeeps(w.cfg, w.store, |w.chain.blocks|);
    NowSound(w.cfg, w.store, |w.chain.blocks|);
    assert MintSound(w.cfg, db, key, db.mints[key]);
  }

  // ---- each guard ----

  /** A step that breaks the first guard on a paid record leads to a second payment. */
  lemma UntimelyPaysTwice(ws: seq<World>, ls: seq<Step>, l: Step, p: nat, height: nat, tx: Scan.Tx)
    returns (ws': seq<World>, ls': seq<Step>)
    requires ws != [] && IsRun(ws, ls) && Enabled(Last(ws), l) && Assumed(Last(ws), l)
    requires !Timely(Last(ws), l)
    requires p < |Last(ws).pays| && Last(ws).pays[p].state.Sent? && Last(ws).pays[p].key == l.job.key
    requires Rebindable(Next(Last(ws), l), Next(Last(ws), l).store.db, l.job.key, height, tx, Last(ws).pays[p].address)
    ensures ws + [Next(Last(ws), l)] <= ws' && IsRun(ws', ls')
    ensures var pays, q := Last(ws').pays, |Last(ws).pays|;
            |pays| == q + 1 && pays[p] == Last(ws).pays[p] && pays[q].state.Sent? && pays[q].key == pays[p].key
  {
    hide IsRun, Enabled, Next, Rebindable;
    PaysFrame(Last(ws), l);
    ws', ls' := Take(false, false, ws, ls, l);
    ws', ls' := PaidAgain(false, false, ws', ls', p, height, tx, Last(ws').store.db);
  }

  /** The books have the receipt as minted by `mint`, or as still being minted, and then `mint` is
      what a scan may find for it. */
  ghost predicate MintedBy(w: World, db: Db, key: Outpoint, mint: Scan.Tx) {
    && key in db.mints
    && if db.mints[key].status == Minting then
         && Scan.OnChain(mint, w.chain) && Scan.Carries(mint, ScriptOf(db.mints[key].tag))
         && NamesNoOther(mint, db.mints[key].ssqAddress)
       else db.mints[key].mintTxid == Some(mint.txid)
  }

  /** `tx` is in a block and returns the receipt that `mint` made, for `address`. */
  ghost predicate IsReturned(w: World, mint: Scan.Tx, height: nat, tx: Scan.Tx, address: string) {
    && height < |w.chain.blocks| && tx in w.chain.blocks[height]
    && Returns(w.cfg, mint.txid, tx) && Honours(w.cfg, tx, address)
  }

  /** Every request for the job that the signer still has is dropped. */
  lemma {:induction false} DropPending(ws: seq<World>, ls: seq<Step>, j: Job, n: nat)
    returns (ws': seq<World>, ls': seq<Step>)
    requires ws != [] && IsRunUnder(false, false, ws, ls) && n <= |Last(ws).calls|
    requires forall i :: 0 <= i < n && Last(ws).calls[i].job == j ==> !Last(ws).calls[i].state.Pending?
    ensures ws <= ws' && ws' != [] && IsRunUnder(false, false, ws', ls')
    ensures Last(ws') == Last(ws).(calls := Last(ws').calls)
    ensures forall i :: 0 <= i < |Last(ws').calls| && Last(ws').calls[i].job == j ==>
                          !Last(ws').calls[i].state.Pending?
    decreases |Last(ws).calls| - n
  {
    hide IsRunUnder;
    ws', ls' := ws, ls;
    if n < |Last(ws).calls| {
      if Last(ws).calls[n].state.Pending? {
        ws', ls' := Take(false, false, ws, ls, SignerDrops(n));
      }
      ws', ls' := DropPending(ws', ls', j, n + 1);
    }
  }

  lemma AttemptAgain(w: World, key: Outpoint)
    requires IsMinting(w.store.db, key) && w.attempts == map[]
    requires forall i :: 0 <= i < |w.calls| && w.calls[i].job == Job(MintLeg, key) ==> !w.calls[i].state.Pending?
    ensures var l := BeginAttempt(Job(MintLeg, key), false);
            CanTake(false, false, w, l) && Next(w, l) == w.(attempts := map[Job(MintLeg, key) := Scanning(w.chain)])
  {
  }

  predicate IsMinting(db: Db, key: Outpoint) {
    key in db.mints && db.mints[key].status == Minting
  }

  lemma FindAgain(w: World, key: Outpoint, mint: Scan.Tx)
    requires IsMinting(w.store.db, key) && MintedBy(w, w.store.db, key, mint)
    requires w.attempts == map[Job(MintLeg, key) := Scanning(w.chain)]
    ensures var j := Job(MintLeg, key);
            var l := EndScan(j, Scan.Found(mint));
            && CanTake(false, false, w, l)
            && Next(w, l) == w.(store := SentStore(w.store, j, mint.txid), attempts := map[j := Finishing])
  {
    hide ScriptOf, Scan.Carries, Scan.OnChain, NamesNoOther;
    var j := Job(MintLeg, key);
    assert map[j := Scanning(w.chain)][j := Finishing] == map[j := Finishing];
  }

  /** After a restart, a receipt that the disk has as still being minted is found on the chain. */
  lemma RestartAndFind(ws: seq<World>, ls: seq<Step>, key: Outpoint, mint: Scan.Tx)
    returns (ws': seq<World>, ls': seq<Step>)
    requires ws != [] && IsRunUnder(false, false, ws, ls)
    requires var w := Last(ws); IsMinting(Disk(w.store), key) && MintedBy(w, Disk(w.store), key, mint)
    ensures ws <= ws' && ws' != [] && IsRunUnder(false, false, ws', ls') && SameOutside(Last(ws), Last(ws'))
    ensures var db := Last(ws').store.db;
            key in db.mints && db.mints[key].status == Minted && db.mints[key].mintTxid == Some(mint.txid)
  {
    hide IsRunUnder, Next, CanTake, Scan.Carries, Scan.OnChain, ScriptOf, NamesNoOther, Disk;
    var j := Job(MintLeg, key);
    ws', ls' := Restart(false, false, ws, ls);
    ws', ls' := DropPending(ws', ls', j, 0);
    AttemptAgain(Last(ws'), key);
    ws', ls' := Take(false, false, ws', ls', BeginAttempt(j, false));
    FindAgain(Last(ws'), key, mint);
    ws', ls' := Take(false, false, ws', ls', EndScan(j, Scan.Found(mint)));
  }

  /** The wallet is asked, and pays. */
  lemma AskAndSend(ws: seq<World>, ls: seq<Step>, l: Step) returns (ws': seq<World>, ls': seq<Step>)
    requires ws != [] && IsRun(ws, ls) && Enabled(Last(ws), l) && Assumed(Last(ws), l) && Asks(Last(ws), l)
    ensures ws + [Next(Last(ws), l)] <= ws' && IsRunUnder(false, false, ws', ls')
    ensures Last(ws).release.Checking? && Last(ws).release.key in Last(ws).store.db.mints
    ensures var w := Last(ws);
            Last(ws') == w.(pays := w.pays + [Asked(w).(state := Sent("first"))],
                            wallet := w.wallet + [WalletEntry(true, Comment(Asked(w).intent), "first")],
                            release := Paying(w.release.key, |w.pays|))
  {
    hide IsRun, Asks, Enabled, Next, Comment;
    var w := Last(ws);
    AskedPay(w, l);
    ws', ls' := Take(false, false, ws, ls, l);
    PayStep(Last(ws'), w.pays, Asked(w), "first");
    Implies(false, false, Last(ws'), WalletSends(|w.pays|, "first"));
    ws', ls' := Take(false, false, ws', ls', WalletSends(|w.pays|, "first"));
  }

  /** A step that breaks the second guard while the disk has the receipt as minted, or as still
      being minted, leads to two payments. */
  lemma UnsavedPaysTwice(ws: seq<World>, ls: seq<Step>, l: Step, mint: Scan.Tx, height: nat, tx: Scan.Tx)
    returns (ws': seq<World>, ls': seq<Step>)
    requires ws != [] && IsRun(ws, ls) && Enabled(Last(ws), l) && Assumed(Last(ws), l)
    requires !ClaimSaved(Last(ws), l)
    requires var w := Last(ws);
             && MintedBy(w, Disk(w.store), w.release.key, mint)
             && IsReturned(w, mint, height, tx, w.release.target.address)
    ensures ws + [Next(Last(ws), l)] <= ws' && IsRun(ws', ls')
    ensures var pays, p := Last(ws').pays, |Last(ws).pays|;
            && |pays| == p + 2 && pays[p].state.Sent? && pays[p + 1].state.Sent?
            && pays[p].key == pays[p + 1].key == Last(ws).release.key
  {
    hide IsRun, Disk, Asks, Rebindable, MintedBy, IsReturned, Enabled, Next, Late, Comment, IsMinting;
    ws', ls' := AskAndSend(ws, ls, l);
    var w, key, target := Last(ws), Last(ws).release.key, Last(ws).release.target;
    var db := Disk(w.store);
    StillMintedBy(w, Last(ws'), db, key, mint);
    if IsMinting(db, key) {
      ws', ls' := RestartAndFind(ws', ls', key, mint);
      db := Last(ws').store.db;
    }
    ReturnedIsRebindable(w, Last(ws'), db, key, mint, height, tx, target.address);
    ws', ls' := PaidAgain(false, false, ws', ls', |w.pays|, height, tx, db);
  }

  lemma StillMintedBy(w: World, w': World, db: Db, key: Outpoint, mint: Scan.Tx)
    requires MintedBy(w, db, key, mint) && w'.chain == w.chain && !Late(db, key)
    ensures MintedBy(w', db, key, mint) && key in db.mints
    ensures IsMinting(db, key) || (db.mints[key].status == Minted && db.mints[key].mintTxid == Some(mint.txid))
  {
  }

  lemma ReturnedIsRebindable(w: World, w': World, db: Db, key: Outpoint, mint: Scan.Tx, height: nat, tx: Scan.Tx,
                             address: string)
    requires IsReturned(w, mint, height, tx, address) && w'.cfg == w.cfg && w'.chain == w.chain
    requires key in db.mints && db.mints[key].status == Minted && db.mints[key].mintTxid == Some(mint.txid)
    ensures Rebindable(w', db, key, height, tx, address)
  {
  }
}
