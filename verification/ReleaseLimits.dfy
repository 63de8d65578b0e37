/** Both guards of the release leg are needed, from the first start on: a run that keeps one of
    them and every assumption about the outside world, but not the other guard, pays one
    mint record twice; and a run that keeps both completes the loop. */
module ReleaseLimits {
  import opened ByteStrings
  import opened Store
  import opened Gateway
  import opened MoneyLoop
  import opened MintEvidence
  import opened ReleaseSafety
  import opened Runs
  import opened SecondPayment
  import Payout
  import Receipt
  import Scan

  // ---- one deposit, one payout address, and a return spend that commits to it ----

  function Zeros(n: nat): (z: string)
    ensures |z| == n && forall i :: 0 <= i < n ==> z[i] == '0'
  {
    if n == 0 then "" else "0" + Zeros(n - 1)
  }

  /** Stands in for SHA-256. */
  function DigestOf(address: string): (d: Bytes)
    ensures |d| == 32
  {
    LittleEndian(|address|, 32)
  }

  const TXID: string := Zeros(64)
  const KEY: Outpoint := Outpoint(TXID, 0)
  const JOB: Job := Job(MintLeg, KEY)
  const CFG: Config := Config(0, "treasury", "redemption", DigestOf)
  const START: World := World(CFG, Loaded(EMPTY_DB), {}, map[], map[], [], Scan.Chain([], [[]]), Idle, [], [])

  const DEPOSITOR: Intent := Intent(DepositIntent, "holder", None, 0, AwaitingReceipt)
  const PAYEE: Intent := Intent(RedeemIntent, "holder", Some("A"), 1, AwaitingReceipt)
  const OPEN: Db := Db(map["d" := DEPOSITOR, "a" := PAYEE],
                       map[KEY := Deposit(7, "vault", Confirmed, Some("d"), None)], map[], map[], None)
  const CLAIMED: MintRecord := MintRecord("holder", 7, TagFor(JOB, 7), Minting, 0, 0, None, None, None, None)
  const MINTED: MintRecord := CLAIMED.(status := Minted, attempts := 1, mintTxid := Some("m"))

  /** The transaction the signer makes. */
  const MINT_TX: Scan.Tx := Scan.Tx("m", [], [Scan.Output(Some("holder"), ScriptOf(TagFor(JOB, 7)), 0)])

  /** The transaction that returns its receipt. */
  const RETURN_TAG: Receipt.Tag :=
    Receipt.Tag(Receipt.Redeem, 7, TXID, 0, Some(Receipt.PayoutCommit(DigestOf, "A")))
  const RETURN_TX: Scan.Tx := Scan.Tx("r", [Scan.Spend("m", 0)], [Scan.Output(Some("redemption"), "", 1),
                                                                  Scan.Output(None, ScriptOf(RETURN_TAG), 0)])

  /** The mint is in a block, and then its return. */
  const MINT_CHAIN: Scan.Chain := Scan.Chain([], [[], [MINT_TX]])
  const RETURN_CHAIN: Scan.Chain := Scan.Chain([], [[], [MINT_TX], [RETURN_TX]])

  function WithRecord(rec: MintRecord): Db {
    OPEN.(mints := map[KEY := rec])
  }

  lemma SmallInRange()
    ensures 7 < Pow(256, 8) && 0 < Pow(256, 4)
  {
    assert Pow(256, 1) == 256 && Pow(256, 2) == 65536;
    PowAdd(256, 2, 2);
    PowAdd(256, 4, 4);
  }

  lemma TagIsValid()
    ensures Receipt.ValidTag(TagFor(JOB, 7))
  {
    SmallInRange();
  }

  /** The parser sees the commitment in the return spend. */
  lemma ReturnTagIsRead()
    ensures Payout.CommitmentOf(Scan.FirstTag(RETURN_TX.outputs)) == Some(Receipt.PayoutCommit(DigestOf, "A"))
  {
    hide Receipt.TagFromScriptHex, Receipt.TagScriptHex, Receipt.EncodingOf, DigestOf;
    SmallInRange();
    Receipt.HexRoundTrip(DigestOf("A")[..Receipt.COMMIT_LEN]);
    Receipt.DecodeUndoesEncode(RETURN_TAG);
    Receipt.ScriptRoundTrip(Receipt.EncodingOf(RETURN_TAG));
    EmptyScriptHasNoTag();
    var outputs := RETURN_TX.outputs;
    assert outputs[..1] == [outputs[0]] && outputs[..1][..0] == [];
    assert Scan.FirstTag(outputs[..1]) == None;
  }

  lemma EmptyScriptHasNoTag()
    ensures Receipt.TagFromScriptHex("") == None
  {
  }

  // ---- the deposit is minted ----

  ghost predicate Queued(s: StoreState, db: Db) {
    s.db == db && !s.failed && s.written <= |s.log| && s.log != [] && s.log[|s.log| - 1] == db
  }

  ghost predicate Saved(s: StoreState, db: Db) {
    s.db == db && !s.failed && s.written == |s.log| && Disk(s) == db
  }

  lemma NoSteps()
    ensures IsRunUnder(true, true, [START], [])
  {
  }

  /** Registered, deposited and confirmed. */
  lemma OpenedRun() returns (ws: seq<World>, ls: seq<Step>)
    ensures ws != [] && IsRunUnder(true, true, ws, ls)
    ensures exists s :: Last(ws) == START.(store := s) && s.db == OPEN && !s.failed && s.written <= |s.log|
  {
    hide IsRunUnder;
    NoSteps();
    ws, ls := Take(true, true, [START], [], AddIntent("d", DEPOSITOR));
    ws, ls := Take(true, true, ws, ls, AddIntent("a", PAYEE));
    ws, ls := Take(true, true, ws, ls, DepositEvent(KEY, 7, "vault", Confirmed, Some("d")));
    assert Last(ws) == START.(store := Last(ws).store);
  }

  /** Claimed, scanned for by the first attempt, and about to be sent. */
  lemma ClaimedRun() returns (ws: seq<World>, ls: seq<Step>)
    ensures ws != [] && IsRunUnder(true, true, ws, ls)
    ensures var w := Last(ws);
            && Saved(w.store, WithRecord(CLAIMED.(attempts := 1)))
            && w == START.(store := w.store, attempts := map[JOB := Recording(|w.store.log|)])
  {
    hide IsRunUnder, CanTake, Next;
    ws, ls := OpenedRun();
    var s :| Last(ws) == START.(store := s) && s.db == OPEN && !s.failed && s.written <= |s.log|;
    TipStep(Last(ws));
    ws, ls := Take(true, true, ws, ls, ReadTip(JOB));
    ClaimStep(Last(ws), START.chain);
    ws, ls := Take(true, true, ws, ls, ClaimKey(MintCandidate(KEY, CLAIMED)));
    ws, ls := Flush(true, true, ws, ls);
    FirstStep(Last(ws));
    ws, ls := Take(true, true, ws, ls, BeginAttempt(JOB, true));
    ScanSteps(Last(ws));
    ws, ls := Take(true, true, ws, ls, EndScan(JOB, Scan.NotFound));
    ws, ls := Flush(true, true, ws, ls);
  }

  lemma TipStep(w: World)
    requires w == START.(store := w.store) && w.store.db == OPEN
    ensures CanTake(true, true, w, ReadTip(JOB))
    ensures Next(w, ReadTip(JOB)) == w.(claiming := {MintCandidate(KEY, CLAIMED)})
  {
    hide ScriptOf;
    TagIsValid();
    assert NewCandidate(CFG, OPEN, JOB, 0) == MintCandidate(KEY, CLAIMED);
  }

  lemma ClaimStep(w: World, chain: Scan.Chain)
    requires w == START.(store := w.store, chain := chain, claiming := {MintCandidate(KEY, CLAIMED)})
    requires w.store.db == OPEN && !w.store.failed && w.store.written <= |w.store.log|
    ensures var l := ClaimKey(MintCandidate(KEY, CLAIMED));
            && CanTake(true, true, w, l)
            && var w' := Next(w, l);
               && w' == START.(store := w'.store, chain := chain, first := map[KEY := |w'.store.log|])
               && Queued(w'.store, WithRecord(CLAIMED))
  {
    hide ScriptOf, TagFor;
    var c := MintCandidate(KEY, CLAIMED);
    assert {c} - {c} == {};
  }

  lemma FirstStep(w: World)
    requires w == START.(store := w.store, first := map[KEY := |w.store.log|]) && w.store.db == WithRecord(CLAIMED)
    requires w.store.written == |w.store.log|
    ensures CanTake(true, true, w, BeginAttempt(JOB, true))
    ensures Next(w, BeginAttempt(JOB, true)) == w.(first := map[], attempts := map[JOB := Scanning(START.chain)])
  {
    hide ScriptOf, TagFor;
    assert map[KEY := |w.store.log|] - {KEY} == map[];
  }

  lemma ScanSteps(w: World)
    requires w == START.(store := w.store, attempts := map[JOB := Scanning(START.chain)])
    requires Queued(w.store, WithRecord(CLAIMED))
    ensures var l := EndScan(JOB, Scan.NotFound);
            && CanTake(true, true, w, l)
            && var w' := Next(w, l);
               && w' == START.(store := w'.store, attempts := map[JOB := Recording(|w'.store.log|)])
               && Queued(w'.store, WithRecord(CLAIMED.(attempts := 1)))
  {
    hide ScriptOf, TagFor, NamesNoOther;
    assert Scan.ScanContract(START.chain, START.chain, ScriptOf(TagFor(JOB, 7)), 0, Scan.NotFound);
    assert ClaimOf(CFG, w.store.db, JOB) == Some(Claim(TagFor(JOB, 7), 0, "holder"));
    var recording := Recording(|w.store.log| + 1);
    assert map[JOB := Scanning(START.chain)][JOB := recording] == map[JOB := recording];
  }

  const MINT_CALL: SignerCall := SignerCall(JOB, "holder", ScriptOf(TagFor(JOB, 7)), Pending)

  /** The world once the signer has sent the mint. */
  const BROADCAST: World := START.(calls := [MINT_CALL.(state := Broadcast(MINT_TX))],
                                   chain := Scan.Chain([MINT_TX], [[]]))

  lemma SendSteps(w: World)
    requires w == START.(store := w.store, attempts := map[JOB := Recording(|w.store.log|)])
    requires Saved(w.store, WithRecord(CLAIMED.(attempts := 1)))
    ensures CanTake(true, true, w, CallSigner(JOB))
    ensures Next(w, CallSigner(JOB)) == START.(store := w.store, attempts := map[JOB := Calling(0)],
                                               calls := [MINT_CALL])
  {
    hide ScriptOf, TagFor;
    assert ClaimOf(CFG, w.store.db, JOB) == Some(Claim(TagFor(JOB, 7), 0, "holder"));
    assert map[JOB := Recording(|w.store.log|)][JOB := Calling(0)] == map[JOB := Calling(0)];
  }

  lemma BroadcastSteps(w: World)
    requires w == START.(store := w.store, attempts := map[JOB := Calling(0)], calls := [MINT_CALL])
    ensures var l := SignerBroadcasts(0, MINT_TX);
            && CanTake(true, true, w, l)
            && Next(w, l) == BROADCAST.(store := w.store, attempts := map[JOB := Calling(0)])
  {
    hide ScriptOf, TagFor;
    assert MINT_TX.outputs[0].script == ScriptOf(TagFor(JOB, 7));
    assert [] + [MINT_TX] == [MINT_TX];
  }

  lemma ReplyStep(w: World)
    requires w == BROADCAST.(store := w.store, attempts := map[JOB := Calling(0)])
    requires w.store.db == WithRecord(CLAIMED.(attempts := 1))
    ensures CanTake(true, true, w, SignerReplies(JOB))
    ensures Next(w, SignerReplies(JOB)) ==
            w.(store := SentStore(w.store, JOB, "m"), attempts := map[JOB := Finishing])
  {
    hide ScriptOf, TagFor, SentStore;
    assert map[JOB := Calling(0)][JOB := Finishing] == map[JOB := Finishing];
  }

  lemma EndStep(w: World)
    requires w.attempts == map[JOB := Finishing]
    ensures CanTake(true, true, w, EndAttempt(JOB)) && Next(w, EndAttempt(JOB)) == w.(attempts := map[])
  {
    assert map[JOB := Finishing] - {JOB} == map[];
  }

  /** The transaction is known: the record is minted. */
  lemma SentMints(s: StoreState, rec: MintRecord)
    requires s.db == WithRecord(rec) && !s.failed && s.written <= |s.log|
    ensures Queued(SentStore(s, JOB, "m"), WithRecord(rec.(status := Minted, mintTxid := Some("m"))))
    ensures |SentStore(s, JOB, "m").log| == |s.log| + 1
  {
    hide TagFor;
    var minted := rec.(status := Minted, mintTxid := Some("m"));
    assert map[KEY := rec][KEY := minted] == map[KEY := minted];
  }

  /** The signer has sent the mint. */
  lemma BroadcastRun() returns (ws: seq<World>, ls: seq<Step>)
    ensures ws != [] && IsRunUnder(true, true, ws, ls)
    ensures Last(ws) == BROADCAST.(store := Last(ws).store, attempts := map[JOB := Calling(0)])
    ensures Saved(Last(ws).store, WithRecord(CLAIMED.(attempts := 1)))
  {
    hide IsRunUnder, CanTake, Next, ScriptOf, TagFor;
    ws, ls := ClaimedRun();
    SendSteps(Last(ws));
    ws, ls := Take(true, true, ws, ls, CallSigner(JOB));
    BroadcastSteps(Last(ws));
    ws, ls := Take(true, true, ws, ls, SignerBroadcasts(0, MINT_TX));
  }

  /** Its reply is recorded. */
  lemma MintedRun() returns (ws: seq<World>, ls: seq<Step>)
    ensures ws != [] && IsRunUnder(true, true, ws, ls)
    ensures Queued(Last(ws).store, WithRecord(MINTED)) && Last(ws) == BROADCAST.(store := Last(ws).store)
  {
    hide IsRunUnder, CanTake, Next, ScriptOf, TagFor, SentStore;
    ws, ls := BroadcastRun();
    ReplyStep(Last(ws));
    SentMints(Last(ws).store, CLAIMED.(attempts := 1));
    ws, ls := Take(true, true, ws, ls, SignerReplies(JOB));
    EndStep(Last(ws));
    ws, ls := Take(true, true, ws, ls, EndAttempt(JOB));
  }

  lemma MineStep(w: World, next: Scan.Chain)
    requires Scan.Extends(w.chain, next)
    ensures CanTake(true, true, w, ChainMoves(next)) && Next(w, ChainMoves(next)) == w.(chain := next)
  {
    hide Scan.Extends;
  }

  lemma ChainsExtend()
    ensures Scan.Extends(START.chain, MINT_CHAIN) && Scan.Extends(BROADCAST.chain, RETURN_CHAIN)
    ensures Scan.Extends(MINT_CHAIN, RETURN_CHAIN)
  {
    hide ScriptOf, TagFor, RETURN_TAG;
    assert RETURN_CHAIN.blocks[1][0] == MINT_TX;
    assert Scan.MinedSince(MINT_TX, RETURN_CHAIN, 1);
  }

  /** Minted, returned, and all of it on disk. */
  lemma ReturnedRun() returns (ws: seq<World>, ls: seq<Step>)
    ensures ws != [] && IsRunUnder(true, true, ws, ls)
    ensures Saved(Last(ws).store, WithRecord(MINTED))
    ensures Last(ws) == BROADCAST.(store := Last(ws).store, chain := RETURN_CHAIN)
  {
    hide IsRunUnder, CanTake, Next, Scan.Extends;
    ws, ls := MintedRun();
    ChainsExtend();
    MineStep(Last(ws), RETURN_CHAIN);
    ws, ls := Take(true, true, ws, ls, ChainMoves(RETURN_CHAIN));
    ws, ls := Flush(true, true, ws, ls);
  }

  // ---- the return spend ----

  const LISTING: seq<Payout.Listed> := [Payout.Listed("d", DEPOSITOR), Payout.Listed("a", PAYEE)]

  lemma AllAreListed(rec: MintRecord)
    ensures Payout.IsListing(WithRecord(rec), LISTING)
  {
    assert "d"[0] != "a"[0];
    assert LISTING[0] == Payout.Listed("d", DEPOSITOR) && LISTING[1] == Payout.Listed("a", PAYEE);
  }

  /** The record says minted, by the transaction that the return spend returns. */
  predicate IsOurs(rec: MintRecord) {
    rec.status == Minted && rec.mintTxid == Some("m") && rec.ssqAddress == "holder" && rec.sats == 7
  }

  /** The chain shows its return, and "a" is the choice. */
  lemma ReturnBinds(w: World, rec: MintRecord)
    requires w.cfg == CFG && w.chain == RETURN_CHAIN && w.store.db == WithRecord(rec) && IsOurs(rec)
    ensures MayBind(w, KEY, 2, RETURN_TX, LISTING)
    ensures ChoiceFor(CFG, "holder", RETURN_TX, LISTING) == Some(Payout.Listed("a", PAYEE))
  {
    hide Payout.Choose, Scan.FirstTag, ScriptOf, DigestOf;
    AllAreListed(rec);
    ReturnTagIsRead();
    ReturnPays();
    Payout.PaidAddressIsCommitted(DigestOf, LISTING, "holder", Scan.FirstTag(RETURN_TX.outputs));
    assert LISTING[0] == Payout.Listed("d", DEPOSITOR) && LISTING[1] == Payout.Listed("a", PAYEE);
    assert RETURN_CHAIN.blocks[2][0] == RETURN_TX;
  }

  lemma ReturnPays()
    ensures Returns(CFG, "m", RETURN_TX)
  {
    hide ScriptOf;
    var outputs := RETURN_TX.outputs;
    assert outputs[..1] == [outputs[0]] && outputs[..1][..0] == [];
    assert Scan.PaidTo(outputs[..1], "redemption") == 1;
    assert RETURN_TX.inputs[0] == Scan.Spend("m", 0);
  }

  /** Whenever the record is minted again, the same return spend speaks for it. */
  lemma ReturnRebinds(w: World, db: Db)
    requires w.cfg == CFG && w.chain == RETURN_CHAIN
    requires KEY in db.mints && db.mints[KEY].status == Minted && db.mints[KEY].mintTxid == Some("m")
    ensures Rebindable(w, db, KEY, 2, RETURN_TX, "A")
  {
    hide Scan.FirstTag, ScriptOf, DigestOf;
    ReturnTagIsRead();
    ReturnPays();
    assert RETURN_CHAIN.blocks[2][0] == RETURN_TX;
  }

  const PAY_A: PayCall := PayCall(KEY, "a", "A", 7, Sent("p"))

  /** The receipt is bound to "a" and paid. */
  lemma FirstPayment(timely: bool, saved: bool, ws: seq<World>, ls: seq<Step>, rec: MintRecord)
    returns (ws': seq<World>, ls': seq<Step>)
    requires ws != [] && IsRunUnder(timely, saved, ws, ls)
    requires Last(ws).cfg == CFG && Last(ws).chain == RETURN_CHAIN && Last(ws).pays == [] && Last(ws).wallet == []
    requires Quiet(Last(ws)) && Last(ws).store.db == WithRecord(rec) && IsOurs(rec)
    requires saved ==> !Last(ws).store.failed
    ensures ws <= ws' && ws' != [] && IsRunUnder(timely, saved, ws', ls')
    ensures Last(ws') == Last(ws).(store := PaidStore(Last(ws).store, KEY, "a", "r"), pays := [PAY_A],
                                   wallet := [WalletEntry(true, Comment("a"), "p")], release := Paying(KEY, 0))
  {
    hide IsRunUnder, ChoiceFor, MayBind, PaidStore, ScriptOf, Comment, IsRelease;
    ReturnBinds(Last(ws), rec);
    ws', ls' := BindAndPay(timely, saved, ws, ls, KEY, 2, RETURN_TX, LISTING, "a", "A", "p");
    assert [] + [PAY_A] == [PAY_A];
    assert [] + [WalletEntry(true, Comment("a"), "p")] == [WalletEntry(true, Comment("a"), "p")];
  }

  lemma Weaken(timely: bool, saved: bool, ws: seq<World>, ls: seq<Step>)
    requires IsRunUnder(true, true, ws, ls)
    ensures IsRunUnder(timely, saved, ws, ls)
  {
    hide IsRun, Timely, ClaimSaved;
  }

  ghost predicate PaidTwice(w: World, key: Outpoint) {
    |w.pays| == 2 && w.pays[0].state.Sent? && w.pays[1].state.Sent? && w.pays[0].key == w.pays[1].key == key
  }

  // ---- a failed disk write ----

  lemma PersistStep(w: World)
    requires Saved(w.store, WithRecord(MINTED))
    ensures CanTake(true, false, w, PersistAgain) && Next(w, PersistAgain) == w.(store := NoteStore(w.store))
  {
    hide Recovers, Already;
  }

  lemma FailStep(w: World)
    requires !w.store.failed && w.store.written < |w.store.log|
    ensures CanTake(true, false, w, WriteFails)
    ensures Next(w, WriteFails) == w.(store := w.store.(failed := true))
  {
    hide Recovers, Already;
  }

  lemma NotedDisk(s: StoreState)
    requires Saved(s, WithRecord(MINTED))
    ensures var s' := NoteStore(s);
            && s'.db == WithRecord(MINTED) && !s'.failed && s'.written < |s'.log|
            && Disk(s'.(failed := true)) == WithRecord(MINTED)
  {
    hide TagFor;
  }

  /** The first guard is kept throughout, but a disk write fails before the receipt is bound: its
      release is paid without being on disk, and after the crash that follows again. */
  lemma PaidTwiceAfterFailedWrite() returns (ws: seq<World>, ls: seq<Step>)
    ensures ws != [] && IsTimelyRun(ws, ls) && PaidTwice(Last(ws), KEY)
  {
    hide IsRunUnder, CanTake, Next, Rebindable, PaidStore, ScriptOf, TagFor, Comment, NoteStore, Disk;
    ws, ls := ReturnedRun();
    Weaken(true, false, ws, ls);
    PersistStep(Last(ws));
    NotedDisk(Last(ws).store);
    ws, ls := Take(true, false, ws, ls, PersistAgain);
    FailStep(Last(ws));
    ws, ls := Take(true, false, ws, ls, WriteFails);
    var s := Last(ws).store;
    ws, ls := FirstPayment(true, false, ws, ls, MINTED);
    UnsavedStaysUnsaved(s);
    ReturnRebinds(Last(ws), Disk(s));
    ws, ls := PaidAgain(true, false, ws, ls, 0, 2, RETURN_TX, Disk(s));
    UnderFirst(ws, ls);
  }

  lemma UnsavedStaysUnsaved(s: StoreState)
    requires s.failed && s.written <= |s.log| && KEY in s.db.mints && "a" in s.db.intents
    ensures Disk(PaidStore(s, KEY, "a", "r")) == Disk(s)
  {
  }

  lemma UnderFirst(ws: seq<World>, ls: seq<Step>)
    requires IsRunUnder(true, false, ws, ls)
    ensures IsTimelyRun(ws, ls)
  {
    hide IsRun, Timely;
  }

  // ---- a late first attempt ----

  /** What the record becomes when the tick finds the mint before the claiming call goes on. */
  const FOUND: MintRecord := CLAIMED.(status := Minted, mintTxid := Some("m"))

  /** The tick's attempt begins while the claim is still being written. */
  lemma TickStep(w: World)
    requires w == START.(store := w.store, chain := MINT_CHAIN, first := w.first) && w.store.db == WithRecord(CLAIMED)
    ensures CanTake(false, true, w, BeginAttempt(JOB, false))
    ensures Next(w, BeginAttempt(JOB, false)) == w.(attempts := map[JOB := Scanning(MINT_CHAIN)])
  {
    hide ScriptOf, TagFor;
  }

  /** A scan finds the mint on the chain and finalizes the record, for the first time or again. */
  lemma FindStep(w: World)
    requires w.cfg == CFG && (w.chain == MINT_CHAIN || w.chain == RETURN_CHAIN)
    requires w.attempts == map[JOB := Scanning(MINT_CHAIN)]
    requires ClaimOf(CFG, w.store.db, JOB) == Some(Claim(TagFor(JOB, 7), 0, "holder"))
    ensures var l := EndScan(JOB, Scan.Found(MINT_TX));
            && CanTake(false, true, w, l)
            && Next(w, l) == w.(store := SentStore(w.store, JOB, "m"), attempts := map[JOB := Finishing])
  {
    hide ScriptOf, TagFor, RETURN_TAG;
    MintIsFound(w.chain);
    assert map[JOB := Scanning(MINT_CHAIN)][JOB := Finishing] == map[JOB := Finishing];
  }

  lemma MintIsFound(chain: Scan.Chain)
    requires chain == MINT_CHAIN || chain == RETURN_CHAIN
    ensures Scan.Carries(MINT_TX, ScriptOf(TagFor(JOB, 7))) && Scan.OnChain(MINT_TX, chain)
    ensures NamesNoOther(MINT_TX, "holder") && MINT_TX.txid == "m"
  {
    hide ScriptOf, TagFor, RETURN_TAG;
    assert MINT_TX.outputs[0].script == ScriptOf(TagFor(JOB, 7));
    assert chain.blocks[1][0] == MINT_TX;
    assert Scan.MinedSince(MINT_TX, chain, 0);
  }

  /** The claiming call goes on to its own attempt, on a record that is minted by now. */
  lemma LateStep(w: World, ticket: nat)
    requires w == START.(store := w.store, chain := MINT_CHAIN, first := map[KEY := ticket])
    requires w.store.db == WithRecord(FOUND) && w.store.written >= ticket
    ensures CanTake(false, true, w, BeginAttempt(JOB, true))
    ensures Next(w, BeginAttempt(JOB, true)) == w.(first := map[], attempts := map[JOB := Scanning(MINT_CHAIN)])
  {
    hide ScriptOf, TagFor;
    assert map[KEY := ticket] - {KEY} == map[];
  }

  /** Before the deposit is claimed, a transaction with its tag is in a block. */
  lemma ForeseenRun() returns (ws: seq<World>, ls: seq<Step>)
    ensures ws != [] && IsRunUnder(true, true, ws, ls)
    ensures var w := Last(ws);
            && w == START.(store := w.store, chain := MINT_CHAIN, claiming := {MintCandidate(KEY, CLAIMED)})
            && w.store.db == OPEN && !w.store.failed && w.store.written <= |w.store.log|
  {
    hide IsRunUnder, CanTake, Next, Scan.Extends, ScriptOf, TagFor;
    ws, ls := OpenedRun();
    var s :| Last(ws) == START.(store := s) && s.db == OPEN && !s.failed && s.written <= |s.log|;
    TipStep(Last(ws));
    ws, ls := Take(true, true, ws, ls, ReadTip(JOB));
    ChainsExtend();
    MineStep(Last(ws), MINT_CHAIN);
    ws, ls := Take(true, true, ws, ls, ChainMoves(MINT_CHAIN));
  }

  /** And then it is claimed. */
  lemma OvertakenRun() returns (ws: seq<World>, ls: seq<Step>)
    ensures ws != [] && IsRunUnder(false, true, ws, ls)
    ensures var w := Last(ws);
            && w == START.(store := w.store, chain := MINT_CHAIN, first := map[KEY := |w.store.log|])
            && Queued(w.store, WithRecord(CLAIMED))
  {
    hide IsRunUnder, CanTake, Next, ScriptOf, TagFor;
    ws, ls := ForeseenRun();
    ClaimStep(Last(ws), MINT_CHAIN);
    ws, ls := Take(true, true, ws, ls, ClaimKey(MintCandidate(KEY, CLAIMED)));
    Weaken(false, true, ws, ls);
  }

  /** The tick finds that transaction and frees the key; then the first attempt begins. */
  lemma LateBeginRun() returns (ws: seq<World>, ls: seq<Step>)
    ensures ws != [] && IsRunUnder(false, true, ws, ls)
    ensures Last(ws) == START.(store := Last(ws).store, chain := MINT_CHAIN,
                               attempts := map[JOB := Scanning(MINT_CHAIN)])
    ensures Saved(Last(ws).store, WithRecord(FOUND))
  {
    hide IsRunUnder, CanTake, Next, ScriptOf, TagFor, SentStore;
    ws, ls := OvertakenRun();
    var ticket := |Last(ws).store.log|;
    TickStep(Last(ws));
    ws, ls := Take(false, true, ws, ls, BeginAttempt(JOB, false));
    FindStep(Last(ws));
    SentMints(Last(ws).store, CLAIMED);
    ws, ls := Take(false, true, ws, ls, EndScan(JOB, Scan.Found(MINT_TX)));
    EndStep(Last(ws));
    Implies(false, true, Last(ws), EndAttempt(JOB));
    ws, ls := Take(false, true, ws, ls, EndAttempt(JOB));
    ws, ls := Flush(false, true, ws, ls);
    LateStep(Last(ws), ticket);
    ws, ls := Take(false, true, ws, ls, BeginAttempt(JOB, true));
  }

  lemma PaymentConfirmed(w: World)
    requires w.release == Paying(KEY, 0) && w.pays == [PAY_A] && KEY in w.store.db.mints
    ensures CanTake(false, true, w, ReleaseReplies)
    ensures Next(w, ReleaseReplies) == w.(store := RedeemedStore(w.store, KEY, "p"),
                                          release := Noting(KEY, "a", Released, |w.store.log| + 1))
  {
    hide Disk, Recovers, Already, Late;
  }

  /** The receipt comes back, is bound, paid and redeemed, and then recorded as minted again. */
  lemma LateRun() returns (ws: seq<World>, ls: seq<Step>)
    ensures ws != [] && IsRunUnder(false, true, ws, ls)
    ensures Last(ws).pays == [PAY_A] && Last(ws).cfg == CFG && Last(ws).chain == RETURN_CHAIN
    ensures var s := Last(ws).store;
            !s.failed && KEY in s.db.mints && s.db.mints[KEY].status == Minted && s.db.mints[KEY].mintTxid == Some("m")
  {
    hide IsRunUnder, CanTake, Next, ScriptOf, TagFor, Comment, Scan.Extends;
    ws, ls := LateBeginRun();
    ChainsExtend();
    MineStep(Last(ws), RETURN_CHAIN);
    Implies(false, true, Last(ws), ChainMoves(RETURN_CHAIN));
    ws, ls := Take(false, true, ws, ls, ChainMoves(RETURN_CHAIN));
    ws, ls := FirstPayment(false, true, ws, ls, FOUND);
    PaymentConfirmed(Last(ws));
    ws, ls := Take(false, true, ws, ls, ReleaseReplies);
    FindStep(Last(ws));
    ws, ls := Take(false, true, ws, ls, EndScan(JOB, Scan.Found(MINT_TX)));
  }

  /** The second guard is kept throughout, but the tick's scan finds the mint before the call that
      claimed the deposit goes on: its own attempt begins on the minted record, ends after the
      release, and reopens the record, and the same return spend binds and pays it again. */
  lemma PaidTwiceAfterStaleAttempt() returns (ws: seq<World>, ls: seq<Step>)
    ensures ws != [] && IsRunUnder(false, true, ws, ls) && PaidTwice(Last(ws), KEY)
  {
    hide IsRunUnder, Rebindable;
    ws, ls := LateRun();
    ReturnRebinds(Last(ws), Last(ws).store.db);
    ws, ls := PaidAgain(false, true, ws, ls, 0, 2, RETURN_TX, Last(ws).store.db);
  }

  // ---- and with both guards ----

  /** A guarded run does complete the loop: one broadcast, and one payment of the record's sats
      to the address that the return spend commits to. */
  lemma LoopCompletes() returns (ws: seq<World>, ls: seq<Step>)
    ensures ws != [] && IsGuardedRun(ws, ls)
    ensures var w := Last(ws);
            && |w.calls| == 1 && w.calls[0].state == Broadcast(MINT_TX)
            && w.pays == [PayCall(KEY, "a", "A", 7, Sent("p"))]
  {
    hide IsRunUnder, ScriptOf, TagFor, PaidStore, Comment, Disk;
    ws, ls := ReturnedRun();
    ws, ls := FirstPayment(true, true, ws, ls, MINTED);
    UnderBoth(ws, ls);
  }
}
