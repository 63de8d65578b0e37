/** The router as the mint-routing hop of the gateway, against minting directly: events of one
    deposit outpoint pass the gateway's gate and then one or the other. */
module MintRouting {
  import opened ByteStrings
  import opened Store
  import opened Router
  import Gateway
  import MoneyLoop
  import Payout
  import ReleaseLimits
  import Scan

  /** The mint pipeline on a ledger of any kind: `mint(n, l)` is the call made at the `n`-th
      event, `tick(n, l)` what the rest of the gateway did before it. */
  datatype Pipeline<!L> = Pipeline(mint: (nat, L) -> (L, Option<string>), tick: (nat, L) -> L, released: L -> bool)

  /** One outpoint mints once: a returned transaction is in the ledger for good, and minting
      again then changes nothing. */
  ghost predicate Idempotent<L(!new)>(p: Pipeline<L>) {
    && (forall n: nat, l: L :: p.mint(n, l).1.Some? ==> p.released(p.mint(n, l).0))
    && (forall n: nat, l: L :: p.released(l) ==> p.mint(n, l).0 == l)
    && (forall n: nat, l: L :: p.released(l) ==> p.released(p.tick(n, l)))
  }

  /** The highest confidence among the events, -1 if there are none. */
  function Highest(es: seq<Confidence>): int {
    if es == [] then -1
    else
      var earlier := Highest(es[..|es| - 1]);
      if Gateway.Rank(es[|es| - 1]) > earlier then Gateway.Rank(es[|es| - 1]) else earlier
  }

  /** onDepositEvent passes the last event on if it is news and not from the mempool. */
  predicate Forwards(es: seq<Confidence>)
    requires es != []
  {
    Gateway.Rank(es[|es| - 1]) > Highest(es[..|es| - 1]) && es[|es| - 1] != Mempool
  }

  /** The gateway's books after such events of one deposit. */
  function AfterEvents(s: StoreState, key: Outpoint, sats: nat, address: string, intentId: Option<IntentId>,
                       es: seq<Confidence>): StoreState
  {
    if es == [] then s
    else
      var before := AfterEvents(s, key, sats, address, intentId, es[..|es| - 1]);
      if Gateway.IsNews(before.db, key, es[|es| - 1]) then
        Gateway.DepositStore(before, key, sats, address, es[|es| - 1], intentId)
      else before
  }

  /** That is the gateway's own gate: the deposit has the highest confidence so far, and an event is
      news exactly if its own is higher. */
  lemma {:induction false} GateIsTheDeposits(s: StoreState, key: Outpoint, sats: nat, address: string,
                                             intentId: Option<IntentId>, es: seq<Confidence>, next: Confidence)
    requires key !in s.db.deposits
    ensures var db := AfterEvents(s, key, sats, address, intentId, es).db;
            && (key in db.deposits <==> es != [])
            && (es != [] ==> Gateway.Rank(db.deposits[key].confidence) == Highest(es))
            && (Gateway.IsNews(db, key, next) && next != Mempool <==> Forwards(es + [next]))
  {
    hide AfterEvents, Highest, Gateway.Rank, Forwards;
    NextForwards(es, next);
    if es == [] {
      NoEventsYet(s, key, sats, address, intentId);
    } else {
      var front, last := es[..|es| - 1], es[|es| - 1];
      GateIsTheDeposits(s, key, sats, address, intentId, front, last);
      OneMoreEvent(s, key, sats, address, intentId, es);
      NextForwards(front, last);
      assert es == front + [last];
      if front == [] {
        NoEventsYet(s, key, sats, address, intentId);
      }
    }
  }

  lemma NoEventsYet(s: StoreState, key: Outpoint, sats: nat, address: string, intentId: Option<IntentId>)
    ensures AfterEvents(s, key, sats, address, intentId, []) == s && Highest([]) == -1
  {
  }

  lemma OneMoreEvent(s: StoreState, key: Outpoint, sats: nat, address: string, intentId: Option<IntentId>,
                     es: seq<Confidence>)
    requires es != []
    ensures var before := AfterEvents(s, key, sats, address, intentId, es[..|es| - 1]).db;
            var db := AfterEvents(s, key, sats, address, intentId, es).db;
            if Gateway.IsNews(before, key, es[|es| - 1]) then
              key in db.deposits && db.deposits[key].confidence == es[|es| - 1]
            else db == before
  {
    hide Gateway.IsNews;
  }

  lemma NextForwards(es: seq<Confidence>, next: Confidence)
    ensures Forwards(es + [next]) <==> Gateway.Rank(next) > Highest(es) && next != Mempool
    ensures Highest(es + [next]) == if Gateway.Rank(next) > Highest(es) then Gateway.Rank(next) else Highest(es)
  {
    assert (es + [next])[..|es|] == es;
  }

  function Direct<L>(p: Pipeline<L>, start: L, es: seq<Confidence>): L {
    if es == [] then start
    else
      var n := |es| - 1;
      var l := p.tick(n, Direct(p, start, es[..n]));
      if Forwards(es) then p.mint(n, l).0 else l
  }

  function Routed<L>(p: Pipeline<L>, policy: Confidence, chain: ChainId, id: string, start: L, es: seq<Confidence>)
    : (RouterState, L)
  {
    if es == [] then (EMPTY, start)
    else
      var n := |es| - 1;
      var (s, before) := Routed(p, policy, chain, id, start, es[..n]);
      var l := p.tick(n, before);
      var e := Event(chain, id, es[n]);
      if !Forwards(es) then (s, l)
      else if Attempts(policy, {chain}, s, e) then
        var (l', txid) := p.mint(n, l);
        (Handle(policy, {chain}, s, Detected(e, txid)), l')
      else (Handle(policy, {chain}, s, Detected(e, None)), l)
  }

  lemma {:induction false} HighestRange(es: seq<Confidence>)
    ensures -1 <= Highest(es) <= 2
  {
    if es != [] {
      HighestRange(es[..|es| - 1]);
    }
  }

  /** Router and ledger stay in step: what the router has recorded as released is released. */
  lemma {:induction false} RoutedAgrees<L(!new)>(p: Pipeline<L>, policy: Confidence, chain: ChainId, id: string,
                                                 start: L, es: seq<Confidence>)
    returns (rank: int, txid: Option<string>)
    requires Idempotent(p) && policy != Finalized
    ensures var (s, l) := Routed(p, policy, chain, id, start, es);
            && Knows(s, chain, id, rank, txid) && !s.halted && -1 <= rank <= 2 && rank <= Highest(es)
            && (txid.Some? ==> p.released(l)) && l == Direct(p, start, es)
  {
    hide Knows, Handle, Attempts;
    if es == [] {
      KnowsNothing(chain, id);
      rank, txid := -1, None;
    } else {
      var n := |es| - 1;
      rank, txid := RoutedAgrees(p, policy, chain, id, start, es[..n]);
      HighestRange(es);
      var (s, before) := Routed(p, policy, chain, id, start, es[..n]);
      var l := p.tick(n, before);
      if Forwards(es) {
        var e := Event(chain, id, es[n]);
        var outcome := if Attempts(policy, {chain}, s, e) then p.mint(n, l).1 else None;
        IdStep(policy, {chain}, s, e, outcome, rank, txid);
        EventsDoNotHalt(policy, {chain}, s, e, outcome);
        assert Attempts(policy, {chain}, s, e) <==> txid.None?;
        assert txid.Some? ==> p.mint(n, l).0 == l;
        rank := Gateway.Rank(es[n]);
        txid := if txid.None? then outcome else txid;
      }
    }
  }

  lemma EventsDoNotHalt(policy: Confidence, strategies: set<ChainId>, s: RouterState, e: Event, outcome: Option<string>)
    ensures Handle(policy, strategies, s, Detected(e, outcome)).halted == s.halted
  {
  }

  // ---- the gateway's own pipeline ----

  /** What the gateway is told and does at each event: the answers to its mint call, whether an
      attempt of the outpoint is already on its way, and before that the steps of the money
      loop since the event before, in the world around the store at that time. */
  datatype Schedule = Schedule(answers: nat -> Gateway.Answers, busy: nat -> bool,
                               around: nat -> MoneyLoop.World, steps: nat -> seq<MoneyLoop.Step>)

  /** The steps one after the other, leaving out those that cannot be taken, and restarts. */
  ghost function Perform(w: MoneyLoop.World, ls: seq<MoneyLoop.Step>): MoneyLoop.World
    decreases |ls|
  {
    if ls == [] then w
    else
      var w' := if MoneyLoop.Enabled(w, ls[0]) && !ls[0].CrashAndReload? then MoneyLoop.Next(w, ls[0]) else w;
      Perform(w', ls[1..])
  }

  predicate IsMinted(s: StoreState, key: Outpoint) {
    key in s.db.mints && s.db.mints[key].mintTxid.Some?
  }

  ghost function GatewayPipeline(cfg: Gateway.Config, key: Outpoint, t: Schedule): Pipeline<StoreState> {
    Pipeline((n: nat, s: StoreState) => Gateway.MintCall(cfg, s, t.busy(n), key, t.answers(n)),
             (n: nat, s: StoreState) => Perform(t.around(n).(store := s), t.steps(n)).store,
             (s: StoreState) => IsMinted(s, key))
  }

  /** What is written into a record that has its transaction leaves it one. */
  lemma WrittenKeepsTxid(w: MoneyLoop.World, l: MoneyLoop.Step)
    requires MoneyLoop.Enabled(w, l) && MoneyLoop.Writes(w, l).Some?
    requires IsMinted(w.store, MoneyLoop.Writes(w, l).value.key)
    ensures MoneyLoop.Writes(w, l).value.rec.mintTxid.Some?
  {
    hide Scan.ScanContract, Gateway.NamesNoOther, Gateway.ScriptOf, MoneyLoop.ChoiceFor, MoneyLoop.Already,
         MoneyLoop.Returns, Payout.IsListing;
  }

  /** No step of the money loop takes a transaction out of the books. */
  lemma StepKeepsTxid(w: MoneyLoop.World, l: MoneyLoop.Step, key: Outpoint)
    requires MoneyLoop.Enabled(w, l) && !l.CrashAndReload? && IsMinted(w.store, key)
    ensures IsMinted(MoneyLoop.Next(w, l).store, key)
  {
    hide MoneyLoop.Enabled, MoneyLoop.Next, MoneyLoop.Writes;
    MoneyLoop.WritesMints(w, l);
    if MoneyLoop.Writes(w, l).Some? && MoneyLoop.Writes(w, l).value.key == key {
      WrittenKeepsTxid(w, l);
    }
  }

  lemma {:induction false} PerformKeepsTxid(w: MoneyLoop.World, ls: seq<MoneyLoop.Step>, key: Outpoint)
    requires IsMinted(w.store, key)
    ensures IsMinted(Perform(w, ls).store, key)
    decreases |ls|
  {
    hide MoneyLoop.Enabled, MoneyLoop.Next, IsMinted;
    if ls != [] {
      var w' := if MoneyLoop.Enabled(w, ls[0]) && !ls[0].CrashAndReload? then MoneyLoop.Next(w, ls[0]) else w;
      if w' != w {
        StepKeepsTxid(w, ls[0], key);
      }
      PerformKeepsTxid(w', ls[1..], key);
    }
  }

  /** A mint call that answers with a transaction has it in the books, and one for an outpoint
      that has its transaction there changes nothing. */
  lemma CallIsIdempotent(cfg: Gateway.Config, s: StoreState, busy: bool, key: Outpoint, a: Gateway.Answers)
    ensures var (s', txid) := Gateway.MintCall(cfg, s, busy, key, a);
            && (txid.Some? ==> IsMinted(s', key) && s'.db.mints[key].mintTxid == txid)
            && (IsMinted(s, key) ==> s' == s)
  {
    hide Gateway.NamesNoOther, Gateway.TagFor;
  }

  /** The claim of the source: minting is idempotent whatever else the gateway does. */
  lemma GatewayIsIdempotent(cfg: Gateway.Config, key: Outpoint, t: Schedule)
    ensures Idempotent(GatewayPipeline(cfg, key, t))
  {
    hide IsMinted, Gateway.MintCall, Perform;
    var p := GatewayPipeline(cfg, key, t);
    forall n: nat, s: StoreState
      ensures p.mint(n, s).1.Some? ==> p.released(p.mint(n, s).0)
      ensures p.released(s) ==> p.mint(n, s).0 == s
      ensures p.released(s) ==> p.released(p.tick(n, s))
    {
      CallIsIdempotent(cfg, s, t.busy(n), key, t.answers(n));
      if IsMinted(s, key) {
        PerformKeepsTxid(t.around(n).(store := s), t.steps(n), key);
      }
    }
  }

  /** With any policy short of finality, the store after any sequence of events of an outpoint,
      any answers and any steps in between is the one that direct routing gives. */
  lemma SameLedgerAsDirect(cfg: Gateway.Config, key: Outpoint, t: Schedule, policy: Confidence, chain: ChainId,
                           id: string, start: StoreState, es: seq<Confidence>)
    requires policy != Finalized
    ensures var p := GatewayPipeline(cfg, key, t); Routed(p, policy, chain, id, start, es).1 == Direct(p, start, es)
  {
    hide Routed, Direct, Idempotent, GatewayPipeline;
    GatewayIsIdempotent(cfg, key, t);
    var rank, txid := RoutedAgrees(GatewayPipeline(cfg, key, t), policy, chain, id, start, es);
  }

  /** What a mint call answers is what the ledger has then, and the books have it of a deposit that
      is known. */
  lemma AnswersFromTheBooks(cfg: Gateway.Config, s: StoreState, busy: bool, key: Outpoint, a: Gateway.Answers)
    ensures var (s', txid) := Gateway.MintCall(cfg, s, busy, key, a);
            txid == if key in s.db.deposits && key in s'.db.mints then s'.db.mints[key].mintTxid else None
  {
    hide Gateway.NamesNoOther, Gateway.TagFor;
  }

  /** Whenever an event of the outpoint makes the router call the mint, the release that the router
      then has on record is the transaction that the ledger has for the outpoint, if it has one. */
  lemma RouterRecordsTheMint(cfg: Gateway.Config, key: Outpoint, t: Schedule, policy: Confidence, chain: ChainId,
                             id: string, start: StoreState, es: seq<Confidence>) returns (rank: int)
    requires policy != Finalized && es != [] && Forwards(es)
    requires var p := GatewayPipeline(cfg, key, t);
             var (s, l) := Routed(p, policy, chain, id, start, es[..|es| - 1]);
             && Attempts(policy, {chain}, s, Event(chain, id, es[|es| - 1]))
             && key in p.tick(|es| - 1, l).db.deposits
    ensures var (s, l) := Routed(GatewayPipeline(cfg, key, t), policy, chain, id, start, es);
            Knows(s, chain, id, rank, if key in l.db.mints then l.db.mints[key].mintTxid else None)
  {
    hide Knows, Handle, Attempts, Idempotent, Gateway.MintCall, Perform;
    var p, n := GatewayPipeline(cfg, key, t), |es| - 1;
    GatewayIsIdempotent(cfg, key, t);
    var before, known := RoutedAgrees(p, policy, chain, id, start, es[..n]);
    var (s, l) := Routed(p, policy, chain, id, start, es[..n]);
    var e := Event(chain, id, es[n]);
    IdStep(policy, {chain}, s, e, p.mint(n, p.tick(n, l)).1, before, known);
    AnswersFromTheBooks(cfg, p.tick(n, l), t.busy(n), key, t.answers(n));
    rank := Gateway.Rank(es[n]);
  }

  ghost predicate AlwaysAgrees(policy: Confidence) {
    forall cfg: Gateway.Config, key: Outpoint, t: Schedule, chain: ChainId, id: string, start: StoreState,
           es: seq<Confidence> ::
      Routed(GatewayPipeline(cfg, key, t), policy, chain, id, start, es).1
      == Direct(GatewayPipeline(cfg, key, t), start, es)
  }

  /** A node that knows the address, an empty scan, and a signer that replies. */
  const GOOD_DAY: Schedule :=
    Schedule((n: nat) => Gateway.Answers(Some(true), Some(0), false, Scan.NotFound, Some("m")), (n: nat) => false,
             (n: nat) => ReleaseLimits.START, (n: nat) => [])

  /** A confirmed deposit is minted directly but waits in a router that wants finality. */
  lemma FinalityWaits(chain: ChainId, id: string)
    ensures var p := GatewayPipeline(ReleaseLimits.CFG, ReleaseLimits.KEY, GOOD_DAY);
            var start := Loaded(ReleaseLimits.OPEN);
            && IsMinted(Direct(p, start, [Confirmed]), ReleaseLimits.KEY)
            && Routed(p, Finalized, chain, id, start, [Confirmed]).1 == start
  {
    hide Gateway.TagFor;
    var p := GatewayPipeline(ReleaseLimits.CFG, ReleaseLimits.KEY, GOOD_DAY);
    var start, es := Loaded(ReleaseLimits.OPEN), [Confirmed];
    ReleaseLimits.TagIsValid();
    assert es[..0] == [] && Forwards(es);
    assert Routed(p, Finalized, chain, id, start, es[..0]) == (EMPTY, start);
    assert !Attempts(Finalized, {chain}, EMPTY, Event(chain, id, Confirmed));
  }

  /** The router changes nothing about the mint ledger exactly if its policy is not finality. */
  lemma AgreesUnlessFinality(policy: Confidence)
    ensures AlwaysAgrees(policy) <==> policy != Finalized
  {
    hide Routed, Direct, GatewayPipeline;
    if policy != Finalized {
      forall cfg: Gateway.Config, key: Outpoint, t: Schedule, chain: ChainId, id: string, start: StoreState,
             es: seq<Confidence>
        ensures Routed(GatewayPipeline(cfg, key, t), policy, chain, id, start, es).1
             == Direct(GatewayPipeline(cfg, key, t), start, es)
      {
        SameLedgerAsDirect(cfg, key, t, policy, chain, id, start, es);
      }
    } else {
      FinalityWaits("", "");
      assert !IsMinted(Loaded(ReleaseLimits.OPEN), ReleaseLimits.KEY);
      var p := GatewayPipeline(ReleaseLimits.CFG, ReleaseLimits.KEY, GOOD_DAY);
      assert Routed(p, policy, "", "", Loaded(ReleaseLimits.OPEN), [Confirmed]).1
          != Direct(p, Loaded(ReleaseLimits.OPEN), [Confirmed]);
    }
  }
}
