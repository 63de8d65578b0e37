/** Safety of the signing leg over every run: at most one broadcast per deposit outpoint and
    leg, behind a claim that is already on disk. */
module MintSafety {
  import opened ByteStrings
  import opened Store
  import opened Gateway
  import opened MoneyLoop
  import opened StoreOrder
  import Receipt
  import Scan

  // ---- the invariant ----

  /** `tx` waits in the mempool or was mined at height `from` or above. */
  ghost predicate Reached(tx: Scan.Tx, c: Scan.Chain, from: nat) {
    tx in c.mempool || Scan.MinedSince(tx, c, from)
  }

  /** A signer call was made for a claim on disk, and its transaction can only be mined above
      the height that claim records. */
  ghost predicate CallOk(cfg: Config, disk: Db, chain: Scan.Chain, c: SignerCall) {
    && ClaimOf(cfg, disk, c.job).Some?
    && c.script == ScriptOf(ClaimOf(cfg, disk, c.job).value.tag) && c.payTo == ClaimOf(cfg, disk, c.job).value.payTo
    && (c.state.Broadcast? ==> && BuiltFor(c.state.tx, c.script)
                               && Reached(c.state.tx, chain, ClaimOf(cfg, disk, c.job).value.height + 1))
  }

  ghost predicate CallsOk(cfg: Config, disk: Db, chain: Scan.Chain, calls: seq<SignerCall>) {
    forall i :: 0 <= i < |calls| ==> CallOk(cfg, disk, chain, calls[i])
  }

  /** Of two calls for the same job, one came to nothing. */
  predicate OneLive(calls: seq<SignerCall>) {
    forall i, k :: 0 <= i < k < |calls| && calls[i].job == calls[k].job ==>
                     calls[i].state.Dropped? || calls[k].state.Dropped?
  }

  predicate OthersDropped(calls: seq<SignerCall>, j: Job, but: int) {
    forall i :: 0 <= i < |calls| && calls[i].job == j && i != but ==> calls[i].state.Dropped?
  }

  /** Every call for the job is settled, and what it broadcast was there when the scan began. */
  ghost predicate SettledBefore(calls: seq<SignerCall>, j: Job, start: Scan.Chain, height: nat) {
    forall i :: 0 <= i < |calls| && calls[i].job == j ==>
                  && !calls[i].state.Pending?
                  && (calls[i].state.Broadcast? ==> Reached(calls[i].state.tx, start, height + 1))
  }

  ghost predicate StageOk(cfg: Config, s: StoreState, chain: Scan.Chain, calls: seq<SignerCall>, j: Job, stage: Stage) {
    && HasRecord(s.db, j)
    && match stage
       case Scanning(start) =>
         && Scan.Extends(start, chain)
         && ClaimOf(cfg, s.db, j).value.height < |start.blocks|
         && SettledBefore(calls, j, start, ClaimOf(cfg, s.db, j).value.height)
       case Recording(ticket) =>
         1 <= ticket <= |s.log| && HasRecord(Snap(s, ticket), j) && OthersDropped(calls, j, -1)
       case Calling(call) =>
         call < |calls| && calls[call].job == j && OthersDropped(calls, j, call)
       case Finishing => true
  }

  ghost predicate StagesOk(cfg: Config, s: StoreState, chain: Scan.Chain, calls: seq<SignerCall>,
                           attempts: map<Job, Stage>) {
    forall j :: j in attempts ==> StageOk(cfg, s, chain, calls, j, attempts[j])
  }

  ghost predicate CandidatesOk(cfg: Config, db: Db, claiming: set<Candidate>, n: nat) {
    forall c :: c in claiming ==> CandidateOk(cfg, db, c, n)
  }

  ghost predicate Inv(w: World) {
    && StoreInv(w.cfg, w.store, |w.chain.blocks|)
    && CandidatesOk(w.cfg, w.store.db, w.claiming, |w.chain.blocks|)
    && CallsOk(w.cfg, Disk(w.store), w.chain, w.calls)
    && OneLive(w.calls)
    && StagesOk(w.cfg, w.store, w.chain, w.calls, w.attempts)
  }

  // ---- what a moving store leaves alone ----

  lemma ClaimIsRecord(cfg: Config, db: Db, j: Job)
    ensures HasRecord(db, j) <==> ClaimOf(cfg, db, j).Some?
  {
  }

  lemma CandidateKept(cfg: Config, db: Db, db': Db, c: Candidate, n: nat)
    requires CandidateOk(cfg, db, c, n) && Keeps(cfg, db, db')
    ensures CandidateOk(cfg, db', c, n)
  {
  }

  lemma StageKept(cfg: Config, s: StoreState, s': StoreState, chain: Scan.Chain, calls: seq<SignerCall>, j: Job,
                  stage: Stage)
    requires StageOk(cfg, s, chain, calls, j, stage)
    requires Keeps(cfg, s.db, s'.db) && |s.log| <= |s'.log|
    requires forall i :: 0 <= i <= |s.log| ==> Snap(s', i) == Snap(s, i)
    ensures StageOk(cfg, s', chain, calls, j, stage)
  {
    hide Snap, SettledBefore, OthersDropped;
    ClaimIsRecord(cfg, s.db, j);
    ClaimIsRecord(cfg, s'.db, j);
    assert ClaimOf(cfg, s'.db, j) == ClaimOf(cfg, s.db, j);
  }

  lemma StoreMoveKeeps(w: World, s': StoreState)
    requires Inv(w) && Moved(w.cfg, w.store, s', |w.chain.blocks|)
    ensures Inv(w.(store := s'))
  {
    hide StoreInv, Moved, CandidateOk, CallsOk, OneLive, StageOk, Snap, Keeps;
    var cfg, s, n := w.cfg, w.store, |w.chain.blocks|;
    MovedKeepsOrder(cfg, s, s', n);
    MovedGrowsLog(cfg, s, s', n);
    forall c | c in w.claiming ensures CandidateOk(cfg, s'.db, c, n) {
      CandidateKept(cfg, s.db, s'.db, c, n);
    }
    forall j | j in w.attempts ensures StageOk(cfg, s', w.chain, w.calls, j, w.attempts[j]) {
      StageKept(cfg, s, s', w.chain, w.calls, j, w.attempts[j]);
    }
  }

  lemma MovedGrowsLog(cfg: Config, s: StoreState, s': StoreState, n: nat)
    requires Moved(cfg, s, s', n)
    ensures |s.log| <= |s'.log|
  {
  }

  /** A claim on disk is the claim in memory, made below the current height. */
  lemma DiskClaim(cfg: Config, s: StoreState, n: nat, j: Job)
    requires StoreInv(cfg, s, n) && HasRecord(Disk(s), j)
    ensures HasRecord(s.db, j) && ClaimOf(cfg, Disk(s), j) == ClaimOf(cfg, s.db, j)
    ensures ClaimOf(cfg, Disk(s), j).value.height < n
  {
    ClaimIsRecord(cfg, Disk(s), j);
    assert Keeps(cfg, Disk(s), Snap(s, |s.log| + 1));
    assert ClaimOf(cfg, s.db, j).Some?;
  }

  /** The chain moving on changes nothing either. */
  lemma ChainKeeps(w: World, next: Scan.Chain)
    requires Inv(w) && Scan.Extends(w.chain, next)
    ensures Inv(w.(chain := next))
  {
    hide Snap, OneLive, Ordered, Keeps, Sound, BuiltFor;
    var cfg, s := w.cfg, w.store;
    forall i | 0 <= i < |w.calls| ensures CallOk(cfg, Disk(s), next, w.calls[i]) {
      assert CallOk(cfg, Disk(s), w.chain, w.calls[i]);
      if w.calls[i].state.Broadcast? {
        DiskClaim(cfg, s, |w.chain.blocks|, w.calls[i].job);
        ReachedKept(w.calls[i].state.tx, w.chain, next, ClaimOf(cfg, Disk(s), w.calls[i].job).value.height + 1);
      }
    }
    forall j | j in w.attempts ensures StageOk(cfg, s, next, w.calls, j, w.attempts[j]) {
      assert StageOk(cfg, s, w.chain, w.calls, j, w.attempts[j]);
      if w.attempts[j].Scanning? {
        Scan.ExtendsTransitive(w.attempts[j].start, w.chain, next);
      }
    }
    assert CandidatesOk(cfg, s.db, w.claiming, |next.blocks|);
  }

  /** Once a transaction can only be mined above `from`, that stays so: the claim height is
      below every block still to come. */
  lemma ReachedKept(tx: Scan.Tx, c: Scan.Chain, next: Scan.Chain, from: nat)
    requires Scan.Extends(c, next) && Reached(tx, c, from) && from <= |c.blocks|
    ensures Reached(tx, next, from)
  {
    if tx in c.mempool {
      if tx !in next.mempool {
        var h :| |c.blocks| <= h < |next.blocks| && tx in next.blocks[h];
        assert from <= h;
      }
    } else {
      Scan.StaysMined(tx, c, next, from);
    }
  }

  // ---- attempts ----

  lemma StageSet(w: World, j: Job, stage: Stage)
    requires Inv(w) && StageOk(w.cfg, w.store, w.chain, w.calls, j, stage)
    ensures Inv(w.(attempts := w.attempts[j := stage]))
  {
    hide StoreInv, CandidatesOk, CallsOk, OneLive, StageOk;
  }

  lemma ReadTipKeeps(w: World, j: Job)
    requires Inv(w) && Eligible(w.cfg, w.store.db, j) && |w.chain.blocks| > 0
    ensures Inv(w.(claiming := w.claiming + {NewCandidate(w.cfg, w.store.db, j, |w.chain.blocks| - 1)}))
  {
    hide Keeps, CallsOk, OneLive, StageOk, Ordered;
    NowSound(w.cfg, w.store, |w.chain.blocks|);
  }

  lemma BeginKeeps(w: World, j: Job, first: bool)
    requires Inv(w) && Enabled(w, BeginAttempt(j, first)) && Assumed(w, BeginAttempt(j, first))
    ensures Inv(Next(w, BeginAttempt(j, first)))
  {
    hide Keeps, OneLive, Snap, Sound, Ordered, BuiltFor, StagesOk;
    var cfg, s := w.cfg, w.store;
    ClaimIsRecord(cfg, s.db, j);
    Scan.ExtendsReflexive(w.chain);
    forall i | 0 <= i < |w.calls| && w.calls[i].job == j && w.calls[i].state.Broadcast?
      ensures Reached(w.calls[i].state.tx, w.chain, ClaimOf(cfg, s.db, j).value.height + 1)
    {
      assert CallOk(cfg, Disk(s), w.chain, w.calls[i]);
      ClaimIsRecord(cfg, Disk(s), j);
      DiskClaim(cfg, s, |w.chain.blocks|, j);
    }
    StageSet(w, j, Scanning(w.chain));
  }

  /** The scan came back empty: then nothing this key ever asked for is on the chain, or
      will be. */
  lemma EmptyScanMeansDropped(w: World, j: Job)
    requires Inv(w) && Enabled(w, EndScan(j, Scan.NotFound))
    ensures OthersDropped(w.calls, j, -1)
  {
    hide StoreInv, CandidatesOk, OneLive, BuiltFor, Scan.ScanContract;
    var start := w.attempts[j].start;
    var claim := ClaimOf(w.cfg, w.store.db, j).value;
    assert StageOk(w.cfg, w.store, w.chain, w.calls, j, w.attempts[j]);
    forall i | 0 <= i < |w.calls| && w.calls[i].job == j
      ensures w.calls[i].state.Dropped?
    {
      if w.calls[i].state.Broadcast? {
        var tx := w.calls[i].state.tx;
        CallCarries(w, i);
        assert tx in start.mempool || Scan.MinedSince(tx, start, claim.height + 1);
        Scan.FinishedMissesNothing(start, w.chain, ScriptOf(claim.tag), claim.height, Scan.NotFound, tx);
      }
    }
  }

  lemma CallCarries(w: World, i: nat)
    requires Inv(w) && i < |w.calls| && w.calls[i].state.Broadcast?
    ensures HasRecord(w.store.db, w.calls[i].job)
    ensures Scan.Carries(w.calls[i].state.tx, ScriptOf(ClaimOf(w.cfg, w.store.db, w.calls[i].job).value.tag))
  {
    hide CandidatesOk, OneLive, StagesOk, StoreInv;
    assert CallOk(w.cfg, Disk(w.store), w.chain, w.calls[i]);
    ClaimIsRecord(w.cfg, Disk(w.store), w.calls[i].job);
    DiskClaim(w.cfg, w.store, |w.chain.blocks|, w.calls[i].job);
  }

  lemma EndScanKeeps(w: World, j: Job, r: Scan.ScanResult)
    requires Inv(w) && Enabled(w, EndScan(j, r))
    ensures Inv(Next(w, EndScan(j, r)))
  {
    hide StoreInv, CandidatesOk, CallsOk, OneLive, StagesOk, Keeps, Moved, Scan.ScanContract, ScannedStore,
         OthersDropped;
    var cfg, s, n := w.cfg, w.store, |w.chain.blocks|;
    var s' := ScannedStore(cfg, s, j, r);
    ScannedMoves(cfg, s, j, r, n);
    StoreMoveKeeps(w, s');
    var w' := w.(store := s');
    MovedKeepsOrder(cfg, s, s', n);
    KeepsRecord(cfg, s.db, s'.db, j);
    if r.NotFound? {
      EmptyScanMeansDropped(w, j);
      RecordedTicket(s, j);
      StageSet(w', j, Recording(Ticket(s')));
    } else {
      StageSet(w', j, Finishing);
    }
  }

  lemma KeepsRecord(cfg: Config, a: Db, b: Db, j: Job)
    requires Keeps(cfg, a, b) && HasRecord(a, j)
    ensures HasRecord(b, j) && ClaimOf(cfg, b, j) == ClaimOf(cfg, a, j)
  {
    ClaimIsRecord(cfg, a, j);
    ClaimIsRecord(cfg, b, j);
  }

  lemma RecordedTicket(s: StoreState, j: Job)
    requires HasRecord(s.db, j)
    ensures var s' := AttemptStore(s, j);
            1 <= Ticket(s') <= |s'.log| && HasRecord(Snap(s', Ticket(s')), j)
    ensures forall cfg: Config :: ScannedStore(cfg, s, j, Scan.NotFound) == AttemptStore(s, j)
  {
  }

  /** The attempt waited for its record to be written. */
  lemma RecordIsOnDisk(w: World, j: Job)
    requires Inv(w) && Enabled(w, CallSigner(j))
    ensures HasRecord(Disk(w.store), j) && ClaimOf(w.cfg, Disk(w.store), j) == ClaimOf(w.cfg, w.store.db, j)
    ensures OthersDropped(w.calls, j, -1)
  {
    hide Keeps, Sound, HeightsBelow, CandidatesOk, CallsOk, OneLive;
    var cfg, s := w.cfg, w.store;
    var ticket := w.attempts[j].ticket;
    assert StageOk(cfg, s, w.chain, w.calls, j, w.attempts[j]);
    assert Keeps(cfg, Snap(s, ticket), Disk(s));
    KeepsRecord(cfg, Snap(s, ticket), Disk(s), j);
    DiskClaim(cfg, s, |w.chain.blocks|, j);
  }

  /** The call that the signer gets. */
  function NewCall(w: World, j: Job): SignerCall
    requires Enabled(w, CallSigner(j))
  {
    SignerCall(j, ClaimOf(w.cfg, w.store.db, j).value.payTo, ScriptOf(ClaimOf(w.cfg, w.store.db, j).value.tag), Pending)
  }

  lemma CalledCalls(w: World, j: Job)
    requires Enabled(w, CallSigner(j))
    ensures Next(w, CallSigner(j)).calls == w.calls + [NewCall(w, j)]
  {
    hide ScriptOf;
  }

  lemma NewCallOk(w: World, j: Job)
    requires Inv(w) && Enabled(w, CallSigner(j))
    ensures CallOk(w.cfg, Disk(w.store), w.chain, NewCall(w, j))
  {
    hide Inv, Disk, ScriptOf, BuiltFor, Reached;
    RecordIsOnDisk(w, j);
    ClaimIsRecord(w.cfg, Disk(w.store), j);
  }

  lemma CalledCallsOk(w: World, j: Job)
    requires Inv(w) && Enabled(w, CallSigner(j))
    ensures CallsOk(w.cfg, Disk(w.store), w.chain, Next(w, CallSigner(j)).calls)
        && OneLive(Next(w, CallSigner(j)).calls)
  {
    hide StoreInv, CallOk, CandidatesOk, Disk, StagesOk, Enabled, Next, ScriptOf, ClaimOf;
    CalledCalls(w, j);
    RecordIsOnDisk(w, j);
    NewCallOk(w, j);
  }

  lemma CalledStagesOk(w: World, j: Job)
    requires Inv(w) && Enabled(w, CallSigner(j))
    ensures var w' := Next(w, CallSigner(j)); StagesOk(w.cfg, w.store, w.chain, w'.calls, w'.attempts)
  {
    hide StoreInv, CallsOk, OneLive, CandidatesOk, Snap, Reached;
    var cfg, s := w.cfg, w.store;
    var w' := Next(w, CallSigner(j));
    RecordIsOnDisk(w, j);
    forall k | k in w'.attempts ensures StageOk(cfg, s, w.chain, w'.calls, k, w'.attempts[k]) {
      if k != j {
        assert StageOk(cfg, s, w.chain, w.calls, k, w.attempts[k]);
      }
    }
  }

  lemma CallSignerKeeps(w: World, j: Job)
    requires Inv(w) && Enabled(w, CallSigner(j))
    ensures Inv(Next(w, CallSigner(j)))
  {
    hide StoreInv, CallsOk, OneLive, CandidatesOk, StagesOk, Snap;
    CalledCallsOk(w, j);
    CalledStagesOk(w, j);
  }

  // ---- the signer ----

  /** A pending call has settled one way or the other. */
  lemma SettledKeeps(w: World, i: nat, state: CallState)
    requires Inv(w) && i < |w.calls| && w.calls[i].state.Pending? && !state.Pending?
    requires state.Broadcast? ==> state.tx in w.chain.mempool && BuiltFor(state.tx, w.calls[i].script)
    ensures Inv(w.(calls := w.calls[i := w.calls[i].(state := state)]))
  {
    hide StoreInv, CandidatesOk, Snap, BuiltFor, HasRecord;
    var cfg, s := w.cfg, w.store;
    var calls' := w.calls[i := w.calls[i].(state := state)];
    forall k | 0 <= k < |calls'| ensures CallOk(cfg, Disk(s), w.chain, calls'[k]) {
      assert CallOk(cfg, Disk(s), w.chain, w.calls[k]);
    }
    forall j | j in w.attempts ensures StageOk(cfg, s, w.chain, calls', j, w.attempts[j]) {
      assert StageOk(cfg, s, w.chain, w.calls, j, w.attempts[j]);
    }
  }

  lemma BroadcastKeeps(w: World, i: nat, tx: Scan.Tx)
    requires Inv(w) && Enabled(w, SignerBroadcasts(i, tx))
    ensures Inv(Next(w, SignerBroadcasts(i, tx)))
  {
    hide Inv, BuiltFor;
    var next := w.chain.(mempool := w.chain.mempool + [tx]);
    ChainKeeps(w, next);
    SettledKeeps(w.(chain := next), i, Broadcast(tx));
  }

  // ---- the disk ----

  lemma DiskMovesOn(w: World, s': StoreState)
    requires Inv(w) && StoreInv(w.cfg, s', |w.chain.blocks|)
    requires s'.db == w.store.db && s'.log == w.store.log && s'.base == w.store.base
    requires Keeps(w.cfg, Disk(w.store), Disk(s'))
    ensures Inv(w.(store := s'))
  {
    hide StoreInv, CandidateOk, OneLive, Keeps, BuiltFor;
    var cfg, s := w.cfg, w.store;
    forall i | 0 <= i < |w.calls| ensures CallOk(cfg, Disk(s'), w.chain, w.calls[i]) {
      assert CallOk(cfg, Disk(s), w.chain, w.calls[i]);
      ClaimIsRecord(cfg, Disk(s), w.calls[i].job);
      KeepsRecord(cfg, Disk(s), Disk(s'), w.calls[i].job);
    }
    forall j | j in w.attempts ensures StageOk(cfg, s', w.chain, w.calls, j, w.attempts[j]) {
      assert StageOk(cfg, s, w.chain, w.calls, j, w.attempts[j]);
      KeepsReflexive(cfg, s.db);
      StageKept(cfg, s, s', w.chain, w.calls, j, w.attempts[j]);
    }
  }

  lemma CrashKeeps(w: World)
    requires Inv(w)
    ensures Inv(Next(w, CrashAndReload))
  {
    hide StoreInv, OneLive, BuiltFor;
    ReloadMoves(w.cfg, w.store, |w.chain.blocks|);
    assert Disk(Loaded(Disk(w.store))) == Disk(w.store);
  }

  // ---- every step ----

  lemma InitialInv(w: World)
    requires Initial(w)
    ensures Inv(w)
  {
    EmptyStore(w.cfg, |w.chain.blocks|);
  }

  lemma NextInv(w: World, l: Step)
    requires Inv(w) && Enabled(w, l) && Assumed(w, l)
    ensures Inv(Next(w, l))
  {
    hide Inv, Enabled, Next, Assumed;
    match l
    case WriteSnapshot => WriteKeeps(w);
    case WriteFails => FailKeeps(w);
    case CrashAndReload => CrashKeeps(w);
    case BeginAttempt(j, first) => BeginKeeps(w, j, first);
    case EndScan(j, r) => EndScanKeeps(w, j, r);
    case CallSigner(j) => CallSignerKeeps(w, j);
    case SignerBroadcasts(i, tx) => BroadcastKeeps(w, i, tx);
    case _ =>
      if l.ReadTip? || l.SignerDrops? || l.ChainMoves? {
        OutsideKeeps(w, l);
      } else {
        QuietKeeps(w, l);
      }
  }

  lemma OutsideKeeps(w: World, l: Step)
    requires Inv(w) && Enabled(w, l) && Assumed(w, l) && (l.ReadTip? || l.SignerDrops? || l.ChainMoves?)
    ensures Inv(Next(w, l))
  {
    hide Inv, NewCandidate, Eligible, Scan.Extends;
    match l
    case ReadTip(j) => ReadTipKeeps(w, j);
    case SignerDrops(i) => SettledKeeps(w, i, Dropped);
    case ChainMoves(next) => ChainKeeps(w, next);
  }

  lemma WriteKeeps(w: World)
    requires Inv(w) && Enabled(w, WriteSnapshot)
    ensures Inv(Next(w, WriteSnapshot))
  {
    hide StoreInv, CandidatesOk, CallsOk, OneLive, StagesOk, Keeps;
    WriteMoves(w.cfg, w.store, |w.chain.blocks|);
    DiskMovesOn(w, Next(w, WriteSnapshot).store);
  }

  lemma FailKeeps(w: World)
    requires Inv(w) && Enabled(w, WriteFails)
    ensures Inv(Next(w, WriteFails))
  {
    hide StoreInv, CandidatesOk, CallsOk, OneLive, StagesOk;
    FailMoves(w.cfg, w.store, |w.chain.blocks|);
    KeepsReflexive(w.cfg, Disk(w.store));
    DiskMovesOn(w, w.store.(failed := true));
  }

  predicate IsQuiet(l: Step) {
    !TouchesDisk(l) && !l.ReadTip? && !l.BeginAttempt? && !l.EndScan? && !MovesCalls(l) && !l.ChainMoves?
  }

  predicate EndsCall(l: Step) {
    l.SignerReplies? || l.AttemptFails?
  }

  /** The steps that only move the store, end an attempt, or belong to the release leg. */
  lemma QuietKeeps(w: World, l: Step)
    requires Inv(w) && Enabled(w, l) && IsQuiet(l)
    ensures Inv(Next(w, l))
  {
    hide StoreInv, CallsOk, OneLive, StagesOk, CandidateOk, Moved, Keeps, Enabled, Next;
    var s' := Next(w, l).store;
    StepMoves(w, l, |w.chain.blocks|);
    StoreMoveKeeps(w, s');
    var w' := w.(store := s');
    Frame(w, l);
    QuietShape(w, l);
    if EndsCall(l) {
      StillRecorded(w', l.job);
      StageSet(w', l.job, Finishing);
    } else {
      StagesShrink(w', Next(w, l).attempts);
    }
  }

  lemma QuietShape(w: World, l: Step)
    requires Enabled(w, l) && IsQuiet(l)
    ensures Next(w, l).claiming <= w.claiming
    ensures EndsCall(l) ==> l.job in w.attempts && Next(w, l).attempts == w.attempts[l.job := Finishing]
    ensures !EndsCall(l) ==> forall j :: j in Next(w, l).attempts ==>
                                           j in w.attempts && Next(w, l).attempts[j] == w.attempts[j]
  {
    hide ScannedStore, SentStore, NoteStore, RedeemedStore, IntentStore, DepositStore, ClaimStore, BoundStore, MayBind,
         ChoiceFor, Already, IsNews, ScriptOf;
  }

  lemma StillRecorded(w: World, j: Job)
    requires Inv(w) && j in w.attempts
    ensures StageOk(w.cfg, w.store, w.chain, w.calls, j, Finishing)
  {
    assert StageOk(w.cfg, w.store, w.chain, w.calls, j, w.attempts[j]);
  }

  lemma StagesShrink(w: World, attempts: map<Job, Stage>)
    requires Inv(w)
    requires forall j :: j in attempts ==> j in w.attempts && attempts[j] == w.attempts[j]
    ensures StagesOk(w.cfg, w.store, w.chain, w.calls, attempts)
  {
    hide StoreInv, CandidatesOk, CallsOk, OneLive, StageOk;
  }

  lemma {:induction false} RunInv(ws: seq<World>, ls: seq<Step>, i: nat)
    requires IsRun(ws, ls) && i < |ws|
    ensures Inv(ws[i])
  {
    hide Inv, Enabled, Assumed;
    if i == 0 {
      InitialInv(ws[0]);
    } else {
      RunInv(ws, ls, i - 1);
      NextInv(ws[i - 1], ls[i - 1]);
    }
  }

  // ---- the theorems ----

  /** No two signer calls for the same deposit outpoint and leg are both broadcast, over any
      interleaving of events, ticks, lost replies, mined blocks, failed writes and crashes. */
  lemma OneBroadcastPerJob(ws: seq<World>, ls: seq<Step>, i: nat, a: nat, b: nat)
    requires IsRun(ws, ls) && i < |ws|
    requires a < |ws[i].calls| && b < |ws[i].calls| && ws[i].calls[a].job == ws[i].calls[b].job
    requires ws[i].calls[a].state.Broadcast? && ws[i].calls[b].state.Broadcast?
    ensures a == b
  {
    RunInv(ws, ls, i);
  }

  lemma ScriptOfTag(t: Receipt.Tag, u: Receipt.Tag)
    requires Receipt.ValidTag(t) && Receipt.ValidTag(u) && ScriptOf(t) == ScriptOf(u)
    ensures t == u
  {
    Receipt.ScriptIdentifiesTag(t, u);
    Receipt.DecodeUndoesEncode(t);
    Receipt.DecodeUndoesEncode(u);
    Receipt.ScriptRoundTrip(Receipt.EncodingOf(t));
    Receipt.ScriptRoundTrip(Receipt.EncodingOf(u));
  }

  /** The same with the chain's eyes: of all transactions the gateway ever had broadcast, at
      most one carries the tag of a given leg of a given outpoint, whichever call made it.
      So a scan that finds one of them has found the key's own. */
  lemma OneTaggedBroadcast(ws: seq<World>, ls: seq<Step>, i: nat, j: Job, sats: nat, a: nat, b: nat)
    requires IsRun(ws, ls) && i < |ws|
    requires Receipt.ValidTag(TagFor(j, sats))
    requires a < |ws[i].calls| && b < |ws[i].calls|
    requires ws[i].calls[a].state.Broadcast? && ws[i].calls[b].state.Broadcast?
    requires Scan.Carries(ws[i].calls[a].state.tx, ScriptOf(TagFor(j, sats)))
    requires Scan.Carries(ws[i].calls[b].state.tx, ScriptOf(TagFor(j, sats)))
    ensures a == b && ws[i].calls[a].job == j
  {
    RunInv(ws, ls, i);
    TagNamesJob(ws[i], j, sats, a);
    TagNamesJob(ws[i], j, sats, b);
    OneBroadcastPerJob(ws, ls, i, a, b);
  }

  lemma TagNamesJob(w: World, j: Job, sats: nat, a: nat)
    requires Inv(w) && Receipt.ValidTag(TagFor(j, sats))
    requires a < |w.calls| && w.calls[a].state.Broadcast?
    requires Scan.Carries(w.calls[a].state.tx, ScriptOf(TagFor(j, sats)))
    ensures w.calls[a].job == j
  {
    hide OneLive, StagesOk, CandidatesOk, Reached, Scan.Carries, StoreInv, Disk;
    var c, disk := w.calls[a], Disk(w.store);
    assert CallOk(w.cfg, disk, w.chain, c);
    DiskTagFits(w, c.job);
    ScriptOfTag(ClaimOf(w.cfg, disk, c.job).value.tag, TagFor(j, sats));
  }

  /** On disk a claim's tag is its own job's. */
  lemma DiskTagFits(w: World, j: Job)
    requires StoreInv(w.cfg, w.store, |w.chain.blocks|) && ClaimOf(w.cfg, Disk(w.store), j).Some?
    ensures exists sats: nat :: TagFits(j, ClaimOf(w.cfg, Disk(w.store), j).value.tag, sats)
  {
    hide StoreInv, Disk, TagFits;
    var disk := Disk(w.store);
    ClaimIsRecord(w.cfg, disk, j);
    DiskSound(w.cfg, w.store, |w.chain.blocks|);
    if j.leg.MintLeg? {
      assert MintSound(w.cfg, disk, j.key, disk.mints[j.key]);
    } else {
      assert ConvertSound(disk, j.key, disk.converts[j.key]);
    }
  }

  lemma DiskSound(cfg: Config, s: StoreState, n: nat)
    requires StoreInv(cfg, s, n)
    ensures Sound(cfg, Disk(s))
  {
  }

  /** Write-ahead: whenever a signer call is in progress or has been answered, the disk holds
      the claim of its key, and what was broadcast waits in the mempool or was mined above
      the claim height. */
  lemma ClaimIsOnDiskFirst(ws: seq<World>, ls: seq<Step>, i: nat, a: nat)
    requires IsRun(ws, ls) && i < |ws| && a < |ws[i].calls|
    ensures var claim := ClaimOf(ws[i].cfg, Disk(ws[i].store), ws[i].calls[a].job);
            && claim.Some? && ws[i].calls[a].script == ScriptOf(claim.value.tag)
            && claim == ClaimOf(ws[i].cfg, ws[i].store.db, ws[i].calls[a].job)
            && (ws[i].calls[a].state.Broadcast? ==>
                  Reached(ws[i].calls[a].state.tx, ws[i].chain, claim.value.height + 1))
  {
    hide StoreInv, OneLive, StagesOk, CandidatesOk, Snap, BuiltFor, Reached;
    RunInv(ws, ls, i);
    var w := ws[i];
    assert CallOk(w.cfg, Disk(w.store), w.chain, w.calls[a]);
    ClaimIsRecord(w.cfg, Disk(w.store), w.calls[a].job);
    DiskClaim(w.cfg, w.store, |w.chain.blocks|, w.calls[a].job);
  }

  /** A recovery scan never reports a transaction missing that was broadcast for its key, so
      the attempt that follows an empty scan makes the key's only live call. */
  lemma RecoveryFindsTheBroadcast(ws: seq<World>, ls: seq<Step>, i: nat, j: Job, r: Scan.ScanResult, a: nat)
    requires IsRun(ws, ls) && i < |ls| && ls[i] == EndScan(j, r) && r != Scan.Threw
    requires a < |ws[i].calls| && ws[i].calls[a].job == j && ws[i].calls[a].state.Broadcast?
    ensures r.Found?
  {
    hide Inv, Enabled, Next;
    RunInv(ws, ls, i);
    if r.NotFound? {
      EmptyScanMeansDropped(ws[i], j);
    }
  }

  // ---- the disk over a run ----

  ghost predicate RememberedBy(ws: seq<World>, i: nat, db: Db)
    requires i < |ws|
  {
    exists k :: 0 <= k <= i && ws[k].store.db == db
  }

  /** Everything on disk or on its way there was once the memory. */
  lemma {:induction false} SnapshotsWereMemory(ws: seq<World>, ls: seq<Step>, i: nat, m: nat)
    requires IsRun(ws, ls) && i < |ws| && m <= |ws[i].store.log| + 1
    ensures RememberedBy(ws, i, Snap(ws[i].store, m))
  {
    hide Enabled, Assumed, Inv, StoreInv;
    if i == 0 {
      assert Snap(ws[0].store, m) == ws[0].store.db;
    } else {
      var w, w' := ws[i - 1], ws[i];
      assert w' == Next(w, ls[i - 1]);
      RunInv(ws, ls, i - 1);
      SnapshotsOfNext(w, ls[i - 1], m);
      if Snap(w'.store, m) == w'.store.db {
      } else {
        var m' :| 0 <= m' <= |w.store.log| + 1 && Snap(w'.store, m) == Snap(w.store, m');
        SnapshotsWereMemory(ws, ls, i - 1, m');
        var k :| 0 <= k <= i - 1 && ws[k].store.db == Snap(w.store, m');
        assert ws[k].store.db == Snap(w'.store, m);
      }
    }
  }

  lemma SnapshotsOfNext(w: World, l: Step, m: nat)
    requires Inv(w) && Enabled(w, l) && m <= |Next(w, l).store.log| + 1
    ensures var s' := Next(w, l).store;
            Snap(s', m) == s'.db || exists m' :: 0 <= m' <= |w.store.log| + 1 && Snap(s', m) == Snap(w.store, m')
  {
    hide Inv, Enabled, Next, Snap;
    if TouchesDisk(l) {
      SnapshotsOnDisk(w, l, m);
    } else {
      StepPersists(w, l);
      SnapshotsPersisted(w.store, Next(w, l).store, m);
    }
  }

  lemma SnapshotsPersisted(s: StoreState, s': StoreState, m: nat)
    requires (s' == s || s' == Persist(s.(db := s'.db))) && m <= |s'.log| + 1
    ensures Snap(s', m) == s'.db || (m <= |s.log| + 1 && Snap(s', m) == Snap(s, m))
  {
  }

  lemma SnapshotsOnDisk(w: World, l: Step, m: nat)
    requires Inv(w) && Enabled(w, l) && TouchesDisk(l) && m <= |Next(w, l).store.log| + 1
    ensures exists m' :: 0 <= m' <= |w.store.log| + 1 && Snap(Next(w, l).store, m) == Snap(w.store, m')
  {
    hide CandidatesOk, CallsOk, OneLive, StagesOk, Ordered, Sound, HeightsBelow;
    if l.CrashAndReload? {
      assert Snap(Next(w, l).store, m) == Snap(w.store, w.store.written);
    } else {
      assert Snap(Next(w, l).store, m) == Snap(w.store, m);
    }
  }

  lemma StepPersists(w: World, l: Step)
    requires Inv(w) && Enabled(w, l) && !TouchesDisk(l)
    ensures var s' := Next(w, l).store; s' == w.store || s' == Persist(w.store.(db := s'.db))
  {
    hide Next, Enabled, StoreInv, CallsOk, OneLive, StagesOk, CandidateOk, Keeps, Sound, HeightsBelow;
    StepMoves(w, l, |w.chain.blocks|);
  }

  /** The disk always equals the memory of some earlier moment of the run. */
  lemma DiskIsAnEarlierMemory(ws: seq<World>, ls: seq<Step>, i: nat)
    requires IsRun(ws, ls) && i < |ws|
    ensures exists k :: 0 <= k <= i && Disk(ws[i].store) == ws[k].store.db
  {
    RunInv(ws, ls, i);
    SnapshotsWereMemory(ws, ls, i, ws[i].store.written);
    var k :| 0 <= k <= i && ws[k].store.db == Disk(ws[i].store);
  }

  /** And it only moves forward: no claim, deposit or intent on disk is ever lost or changed
      in what it was made for, crashes included. */
  lemma {:induction false} DiskMovesForward(ws: seq<World>, ls: seq<Step>, i: nat, k: nat)
    requires IsRun(ws, ls) && i <= k < |ws|
    ensures ws[i].cfg == ws[k].cfg && Keeps(ws[i].cfg, Disk(ws[i].store), Disk(ws[k].store))
    decreases k
  {
    hide Enabled, Assumed, Inv, Keeps, Snap;
    if i == k {
      KeepsReflexive(ws[i].cfg, Disk(ws[i].store));
    } else {
      DiskMovesForward(ws, ls, i, k - 1);
      RunInv(ws, ls, k - 1);
      assert ws[k] == Next(ws[k - 1], ls[k - 1]);
      DiskStep(ws[k - 1], ls[k - 1]);
      KeepsTransitive(ws[i].cfg, Disk(ws[i].store), Disk(ws[k - 1].store), Disk(ws[k].store));
    }
  }

  lemma DiskStep(w: World, l: Step)
    requires Inv(w) && Enabled(w, l)
    ensures Next(w, l).cfg == w.cfg && Keeps(w.cfg, Disk(w.store), Disk(Next(w, l).store))
  {
    hide StoreInv, CandidatesOk, CallsOk, OneLive, StagesOk, Moved, Keeps, Enabled, Next, Disk;
    Frame(w, l);
    if TouchesDisk(l) {
      DiskTouched(w, l);
    } else {
      DiskLeftAlone(w, l);
    }
  }

  lemma DiskTouched(w: World, l: Step)
    requires Inv(w) && Enabled(w, l) && TouchesDisk(l)
    ensures Keeps(w.cfg, Disk(w.store), Disk(Next(w, l).store))
  {
    hide StoreInv, CandidatesOk, CallsOk, OneLive, StagesOk, Keeps;
    KeepsReflexive(w.cfg, Disk(w.store));
    if l.WriteSnapshot? {
      WriteMoves(w.cfg, w.store, |w.chain.blocks|);
    } else {
      assert Disk(Next(w, l).store) == Disk(w.store);
    }
  }

  lemma DiskLeftAlone(w: World, l: Step)
    requires Inv(w) && Enabled(w, l) && !TouchesDisk(l)
    ensures Keeps(w.cfg, Disk(w.store), Disk(Next(w, l).store))
  {
    hide StoreInv, CandidateOk, CallsOk, OneLive, StagesOk, Moved, Keeps, Enabled, Next, Disk;
    KeepsReflexive(w.cfg, Disk(w.store));
    StepMoves(w, l, |w.chain.blocks|);
    MovedKeepsOrder(w.cfg, w.store, Next(w, l).store, |w.chain.blocks|);
  }

  /** Broadcasts are never forgotten or rewritten, so what holds of the calls of one moment
      holds of every broadcast made up to then. */
  lemma {:induction false} CallsStay(ws: seq<World>, ls: seq<Step>, i: nat, k: nat, a: nat)
    requires IsRun(ws, ls) && i <= k < |ws| && a < |ws[i].calls|
    ensures a < |ws[k].calls| && ws[k].calls[a].job == ws[i].calls[a].job
    ensures ws[i].calls[a].state.Broadcast? ==> ws[k].calls[a] == ws[i].calls[a]
    decreases k
  {
    hide Enabled, Assumed, Next;
    if i < k {
      CallsStay(ws, ls, i, k - 1, a);
      assert ws[k] == Next(ws[k - 1], ls[k - 1]);
      CallStays(ws[k - 1], ls[k - 1], a);
    }
  }

  lemma CallStays(w: World, l: Step, a: nat)
    requires Enabled(w, l) && a < |w.calls|
    ensures var calls := Next(w, l).calls;
            && a < |calls| && calls[a].job == w.calls[a].job
            && (w.calls[a].state.Broadcast? ==> calls[a] == w.calls[a])
  {
    if MovesCalls(l) {
      hide BuiltFor, ClaimOf, ScriptOf;
    } else {
      hide Enabled, Next;
      Frame(w, l);
    }
  }
}
