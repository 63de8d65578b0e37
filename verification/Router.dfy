/** The DUA event router: deduplication, confidence policy and release strategies, and its use
    as the mint-routing hop of the gateway. */
module Router {
  import opened ByteStrings
  import opened Store
  import Gateway

  type ChainId = string

  datatype Event = Event(chain: ChainId, burnTxId: string, confidence: Confidence)

  datatype ReleaseRecord = ReleaseRecord(burnTxId: string, chain: ChainId, confidence: Confidence,
                                         releaseTxId: Option<string>)

  datatype RouterState = RouterState(seen: set<(ChainId, string)>, releases: seq<ReleaseRecord>, halted: bool)

  /** What happens to the router: an event, with what its release would return if it were
      attempted (None for null or a failure), or the circuit breaker. */
  datatype Input = Detected(event: Event, outcome: Option<string>) | Halt | Resume

  predicate MeetsPolicy(policy: Confidence, c: Confidence) {
    Gateway.Rank(c) >= Gateway.Rank(policy)
  }

  predicate IsUpgrade(before: Confidence, now: Confidence) {
    Gateway.Rank(now) > Gateway.Rank(before)
  }

  /** releases.find: the first record of the id. */
  function FindRecord(releases: seq<ReleaseRecord>, id: string): (r: Option<nat>)
    ensures r.Some? ==> r.value < |releases| && releases[r.value].burnTxId == id
                        && forall i :: 0 <= i < r.value ==> releases[i].burnTxId != id
    ensures r.None? ==> forall i :: 0 <= i < |releases| ==> releases[i].burnTxId != id
  {
    if releases == [] then None
    else
      var earlier := FindRecord(releases[..|releases| - 1], id);
      if earlier.Some? then earlier
      else if releases[|releases| - 1].burnTxId == id then Some(|releases| - 1) else None
  }

  /** Whether the event makes the router attempt a release. */
  predicate Attempts(policy: Confidence, strategies: set<ChainId>, s: RouterState, e: Event) {
    if (e.chain, e.burnTxId) in s.seen then
      var i := FindRecord(s.releases, e.burnTxId);
      && i.Some? && IsUpgrade(s.releases[i.value].confidence, e.confidence)
      && e.chain in strategies && !s.halted && s.releases[i.value].releaseTxId.None?
          && MeetsPolicy(policy, e.confidence)
    else
      !s.halted && MeetsPolicy(policy, e.confidence)
  }

  /** onBurnDetected, halt and resume. */
  function Handle(policy: Confidence, strategies: set<ChainId>, s: RouterState, x: Input): RouterState {
    match x
    case Halt => s.(halted := true)
    case Resume => s.(halted := false)
    case Detected(e, outcome) =>
      var got := if Attempts(policy, strategies, s, e) then outcome else None;
      if (e.chain, e.burnTxId) !in s.seen then
        RouterState(s.seen + {(e.chain, e.burnTxId)},
                    s.releases + [ReleaseRecord(e.burnTxId, e.chain, e.confidence, got)], s.halted)
      else
        var i := FindRecord(s.releases, e.burnTxId);
        if i.None? || !IsUpgrade(s.releases[i.value].confidence, e.confidence) then s
        else
          var r := s.releases[i.value];
          s.(releases := s.releases[i.value := r.(confidence := e.confidence,
                                                  releaseTxId := if got.Some? then got else r.releaseTxId)])
  }

  class DUAEventRouter {
    const policy: Confidence
    const strategies: set<ChainId>
    var seenSet: set<(ChainId, string)>
    var releases: seq<ReleaseRecord>
    var halted: bool

    function View(): RouterState
      reads this
    {
      RouterState(seenSet, releases, halted)
    }

    constructor (policy: Confidence, strategies: set<ChainId>)
      ensures this.policy == policy && this.strategies == strategies && View() == EMPTY
    {
      this.policy, this.strategies := policy, strategies;
      seenSet, releases, halted := {}, [], false;
    }

    method Find(id: string) returns (at: Option<nat>)
      ensures at == FindRecord(releases, id)
    {
      var i := 0;
      while i < |releases|
        invariant i <= |releases|
        invariant FindRecord(releases[..i], id).None?
      {
        assert releases[..i + 1][..i] == releases[..i];
        if releases[i].burnTxId == id {
          FoundFirst(releases, i, id);
          return Some(i);
        }
        i := i + 1;
      }
      assert releases[..|releases|] == releases;
      return None;
    }

    /** `outcome` is what the strategy, or the built-in release, answers if it is called. */
    method OnBurnDetected(event: Event, outcome: Option<string>) returns (called: bool)
      modifies this
      ensures called <==> Attempts(policy, strategies, old(View()), event)
      ensures View() == Handle(policy, strategies, old(View()), Detected(event, outcome))
    {
      called := false;
      var dedup := (event.chain, event.burnTxId);
      if dedup in seenSet {
        var existing := Find(event.burnTxId);
        if existing.Some? && IsUpgrade(releases[existing.value].confidence, event.confidence) {
          var record := releases[existing.value].(confidence := event.confidence);
          if event.chain in strategies && !halted && record.releaseTxId.None? && MeetsPolicy(policy, event.confidence) {
            called := true;
            if outcome.Some? {
              record := record.(releaseTxId := outcome);
            }
          }
          releases := releases[existing.value := record];
        }
        return;
      }
      seenSet := seenSet + {dedup};
      var record := ReleaseRecord(event.burnTxId, event.chain, event.confidence, None);
      if !halted && MeetsPolicy(policy, event.confidence) {
        called := true;
        record := record.(releaseTxId := outcome);
      }
      releases := releases + [record];
    }

    /** halt, and resume, which only clears the flag. */
    method SetHalted(on: bool)
      modifies this`halted
      ensures View() == Handle(policy, strategies, old(View()), if on then Halt else Resume)
    {
      halted := on;
    }
  }

  lemma FoundFirst(releases: seq<ReleaseRecord>, i: nat, id: string)
    requires i < |releases| && FindRecord(releases[..i], id).None? && releases[i].burnTxId == id
    ensures FindRecord(releases, id) == Some(i)
  {
    forall j | 0 <= j < i ensures releases[j].burnTxId != id {
      assert releases[..i][j].burnTxId != id;
    }
  }

  // ---- runs ----

  const EMPTY: RouterState := RouterState({}, [], false)

  function Run(policy: Confidence, strategies: set<ChainId>, h: seq<Input>): RouterState {
    if h == [] then EMPTY
    else Handle(policy, strategies, Run(policy, strategies, h[..|h| - 1]), h[|h| - 1])
  }

  predicate IsFor(x: Input, id: string) {
    x.Detected? && x.event.burnTxId == id
  }

  /** The `i`-th input made the router attempt a release. */
  predicate CalledAt(policy: Confidence, strategies: set<ChainId>, h: seq<Input>, i: nat)
    requires i < |h|
  {
    h[i].Detected? && Attempts(policy, strategies, Run(policy, strategies, h[..i]), h[i].event)
  }

  /** The id belongs to one chain, which has a strategy. */
  predicate Undisturbed(strategies: set<ChainId>, h: seq<Input>, chain: ChainId, id: string) {
    chain in strategies && forall i :: 0 <= i < |h| && IsFor(h[i], id) ==> h[i].event.chain == chain
  }

  /** The highest rank of an event for the id, or -1. */
  function MaxRank(h: seq<Input>, id: string): int {
    if h == [] then -1
    else
      var earlier := MaxRank(h[..|h| - 1], id);
      if IsFor(h[|h| - 1], id) && Gateway.Rank(h[|h| - 1].event.confidence) > earlier
      then Gateway.Rank(h[|h| - 1].event.confidence) else earlier
  }

  /** What the first successful attempt for the id returned. */
  function Returned(policy: Confidence, strategies: set<ChainId>, h: seq<Input>, id: string): Option<string> {
    if h == [] then None
    else
      var earlier := Returned(policy, strategies, h[..|h| - 1], id);
      if earlier.Some? then earlier
      else if IsFor(h[|h| - 1], id) && CalledAt(policy, strategies, h, |h| - 1) then h[|h| - 1].outcome else None
  }

  /** What the router knows about an id: its highest rank so far, and its release. */
  predicate Knows(s: RouterState, chain: ChainId, id: string, rank: int, txid: Option<string>) {
    && ((chain, id) in s.seen <==> rank >= 0)
    && var i := FindRecord(s.releases, id);
       && (i.Some? <==> rank >= 0)
       && (i.Some? ==>
             && Gateway.Rank(s.releases[i.value].confidence) == rank && s.releases[i.value].releaseTxId == txid
             && s.releases[i.value].chain == chain)
       && (i.None? ==> txid.None?)
  }

  lemma FindUpdated(releases: seq<ReleaseRecord>, i: nat, r: ReleaseRecord, id: string)
    requires i < |releases| && r.burnTxId == releases[i].burnTxId
    ensures FindRecord(releases[i := r], id) == FindRecord(releases, id)
  {
    var a, b := FindRecord(releases[i := r], id), FindRecord(releases, id);
    assert forall j :: 0 <= j < |releases| ==> releases[i := r][j].burnTxId == releases[j].burnTxId;
  }

  lemma FindAppended(releases: seq<ReleaseRecord>, r: ReleaseRecord, id: string)
    ensures FindRecord(releases + [r], id) ==
            if FindRecord(releases, id).Some? then FindRecord(releases, id)
            else if r.burnTxId == id then Some(|releases|) else None
  {
    assert (releases + [r])[..|releases|] == releases;
  }

  lemma OtherIdKept(policy: Confidence, strategies: set<ChainId>, s: RouterState, x: Input, chain: ChainId, id: string,
                    rank: int, txid: Option<string>)
    requires Knows(s, chain, id, rank, txid) && !IsFor(x, id)
    ensures Knows(Handle(policy, strategies, s, x), chain, id, rank, txid)
  {
    if x.Detected? {
      var e, s' := x.event, Handle(policy, strategies, s, x);
      if (e.chain, e.burnTxId) !in s.seen {
        FindAppended(s.releases, s'.releases[|s.releases|], id);
      } else {
        var i := FindRecord(s.releases, e.burnTxId);
        if i.Some? && IsUpgrade(s.releases[i.value].confidence, e.confidence) {
          FindUpdated(s.releases, i.value, s'.releases[i.value], id);
        }
      }
    }
  }

  /** An event for the id is attempted exactly if it raises the rank to one that meets the
      policy, the breaker is not pulled, and nothing has been released. */
  lemma IdStep(policy: Confidence, strategies: set<ChainId>, s: RouterState, e: Event, outcome: Option<string>,
               rank: int, txid: Option<string>)
    requires Knows(s, e.chain, e.burnTxId, rank, txid) && e.chain in strategies && -1 <= rank <= 2
    ensures var now := Gateway.Rank(e.confidence);
            var called := !s.halted && now > rank && MeetsPolicy(policy, e.confidence) && txid.None?;
            && (Attempts(policy, strategies, s, e) <==> called)
            && Knows(Handle(policy, strategies, s, Detected(e, outcome)), e.chain, e.burnTxId,
                     if now > rank then now else rank,
                     if called && outcome.Some? then outcome else txid)
  {
    var s' := Handle(policy, strategies, s, Detected(e, outcome));
    if (e.chain, e.burnTxId) !in s.seen {
      FindAppended(s.releases, s'.releases[|s.releases|], e.burnTxId);
    } else {
      var i := FindRecord(s.releases, e.burnTxId);
      if IsUpgrade(s.releases[i.value].confidence, e.confidence) {
        FindUpdated(s.releases, i.value, s'.releases[i.value], e.burnTxId);
      }
    }
  }

  lemma {:induction false} RouterKnows(policy: Confidence, strategies: set<ChainId>, h: seq<Input>, chain: ChainId,
                                       id: string)
    requires Undisturbed(strategies, h, chain, id)
    ensures Knows(Run(policy, strategies, h), chain, id, MaxRank(h, id), Returned(policy, strategies, h, id))
    ensures h != [] && IsFor(h[|h| - 1], id) ==>
              (CalledAt(policy, strategies, h, |h| - 1) <==>
                && !Run(policy, strategies, h[..|h| - 1]).halted
                && Gateway.Rank(h[|h| - 1].event.confidence) > MaxRank(h[..|h| - 1], id)
                && MeetsPolicy(policy, h[|h| - 1].event.confidence)
                && Returned(policy, strategies, h[..|h| - 1], id).None?)
  {
    hide Handle, Attempts, Knows;
    if h == [] {
      KnowsNothing(chain, id);
    } else {
      var rest, x := h[..|h| - 1], h[|h| - 1];
      LastUndisturbed(strategies, h, chain, id);
      RouterKnows(policy, strategies, rest, chain, id);
      var s, rank, txid := Run(policy, strategies, rest), MaxRank(rest, id), Returned(policy, strategies, rest, id);
      if IsFor(x, id) {
        RankRange(rest, id);
        IdStep(policy, strategies, s, x.event, x.outcome, rank, txid);
      } else {
        OtherIdKept(policy, strategies, s, x, chain, id, rank, txid);
      }
    }
  }

  lemma KnowsNothing(chain: ChainId, id: string)
    ensures Knows(EMPTY, chain, id, -1, None)
  {
  }

  lemma LastUndisturbed(strategies: set<ChainId>, h: seq<Input>, chain: ChainId, id: string)
    requires h != [] && Undisturbed(strategies, h, chain, id)
    ensures chain in strategies
    ensures IsFor(h[|h| - 1], id) ==> h[|h| - 1].event.chain == chain
    ensures Undisturbed(strategies, h[..|h| - 1], chain, id)
  {
    var rest := h[..|h| - 1];
    forall i | 0 <= i < |rest| ensures rest[i] == h[i] {
    }
  }

  lemma {:induction false} RankRange(h: seq<Input>, id: string)
    ensures -1 <= MaxRank(h, id) <= 2
    ensures MaxRank(h, id) == -1 <==> forall i :: 0 <= i < |h| ==> !IsFor(h[i], id)
    ensures MaxRank(h, id) >= 0 ==>
              exists i :: 0 <= i < |h| && IsFor(h[i], id) && Gateway.Rank(h[i].event.confidence) == MaxRank(h, id)
    ensures forall i :: 0 <= i < |h| && IsFor(h[i], id) ==> Gateway.Rank(h[i].event.confidence) <= MaxRank(h, id)
  {
    if h != [] {
      var rest, x := h[..|h| - 1], h[|h| - 1];
      RankRange(rest, id);
      forall i | 0 <= i < |h| && IsFor(h[i], id) ensures Gateway.Rank(h[i].event.confidence) <= MaxRank(h, id) {
        if i < |rest| {
          assert rest[i] == h[i];
        }
      }
      if MaxRank(h, id) >= 0 && !(IsFor(x, id) && Gateway.Rank(x.event.confidence) == MaxRank(h, id)) {
        var i :| 0 <= i < |rest| && IsFor(rest[i], id) && Gateway.Rank(rest[i].event.confidence) == MaxRank(rest, id);
        assert h[i] == rest[i];
      }
      if MaxRank(h, id) == -1 {
        forall i | 0 <= i < |h| ensures !IsFor(h[i], id) {
          if i < |rest| {
            assert rest[i] == h[i];
          }
        }
      }
    }
  }

  // ---- the theorems ----

  lemma UndisturbedPrefix(strategies: set<ChainId>, h: seq<Input>, chain: ChainId, id: string, n: nat)
    requires Undisturbed(strategies, h, chain, id) && n <= |h|
    ensures Undisturbed(strategies, h[..n], chain, id)
  {
    forall i | 0 <= i < n ensures h[..n][i] == h[i] {
    }
  }

  lemma CalledAtPrefix(policy: Confidence, strategies: set<ChainId>, h: seq<Input>, i: nat)
    requires i < |h|
    ensures CalledAt(policy, strategies, h[..i + 1], i) == CalledAt(policy, strategies, h, i)
  {
    assert h[..i + 1][..i] == h[..i];
  }

  /** When an event for the id is attempted, in runs that are halted and resumed at will. */
  lemma WhenCalled(policy: Confidence, strategies: set<ChainId>, h: seq<Input>, chain: ChainId, id: string, i: nat)
    requires Undisturbed(strategies, h, chain, id) && i < |h| && IsFor(h[i], id)
    ensures CalledAt(policy, strategies, h, i) <==>
              && !Run(policy, strategies, h[..i]).halted
              && Gateway.Rank(h[i].event.confidence) > MaxRank(h[..i], id)
              && MeetsPolicy(policy, h[i].event.confidence)
              && Returned(policy, strategies, h[..i], id).None?
  {
    hide CalledAt, Undisturbed;
    UndisturbedPrefix(strategies, h, chain, id, i + 1);
    RouterKnows(policy, strategies, h[..i + 1], chain, id);
    CalledAtPrefix(policy, strategies, h, i);
    assert h[..i + 1][..i] == h[..i];
  }

  /** An event that could be attempted if nothing had been released. */
  predicate Counts(policy: Confidence, strategies: set<ChainId>, h: seq<Input>, id: string, i: nat)
    requires i < |h|
  {
    && IsFor(h[i], id) && MeetsPolicy(policy, h[i].event.confidence)
    && Gateway.Rank(h[i].event.confidence) > MaxRank(h[..i], id)
    && !Run(policy, strategies, h[..i]).halted
  }

  /** Over every interleaving of events of any ids with halts and resumes, a strategy is called
      for an id at least once exactly if some event raises its confidence to one that meets
      the policy while the breaker is not pulled. */
  lemma CalledIffCounts(policy: Confidence, strategies: set<ChainId>, h: seq<Input>, chain: ChainId, id: string)
    requires Undisturbed(strategies, h, chain, id)
    ensures (exists i :: 0 <= i < |h| && IsFor(h[i], id) && CalledAt(policy, strategies, h, i)) <==>
            (exists i :: 0 <= i < |h| && Counts(policy, strategies, h, id, i))
  {
    hide CalledAt, Undisturbed, MaxRank, Returned, Run;
    forall i | 0 <= i < |h| && IsFor(h[i], id)
      ensures CalledAt(policy, strategies, h, i) ==> Counts(policy, strategies, h, id, i)
    {
      WhenCalled(policy, strategies, h, chain, id, i);
    }
    if i :| 0 <= i < |h| && Counts(policy, strategies, h, id, i) {
      WhenCalled(policy, strategies, h, chain, id, i);
      if Returned(policy, strategies, h[..i], id).Some? {
        var c := ReturnedByCall(policy, strategies, h, id, i);
      }
    }
  }

  /** What was returned was returned by a call. */
  lemma {:induction false} ReturnedByCall(policy: Confidence, strategies: set<ChainId>, h: seq<Input>, id: string,
                                          n: nat) returns (c: nat)
    requires n <= |h| && Returned(policy, strategies, h[..n], id).Some?
    ensures c < n && IsFor(h[c], id) && CalledAt(policy, strategies, h, c)
    decreases n
  {
    hide CalledAt;
    assert n > 0 && h[..n][..n - 1] == h[..n - 1] && h[..n][n - 1] == h[n - 1];
    if Returned(policy, strategies, h[..n - 1], id).Some? {
      c := ReturnedByCall(policy, strategies, h, id, n - 1);
    } else {
      c := n - 1;
      CalledAtPrefix(policy, strategies, h, c);
    }
  }

  predicate NeverHalted(h: seq<Input>) {
    forall i :: 0 <= i < |h| ==> h[i] != Halt
  }

  lemma {:induction false} StaysOpen(policy: Confidence, strategies: set<ChainId>, h: seq<Input>)
    requires NeverHalted(h)
    ensures !Run(policy, strategies, h).halted
  {
    if h != [] {
      forall i | 0 <= i < |h| - 1 ensures h[..|h| - 1][i] == h[i] {
      }
      StaysOpen(policy, strategies, h[..|h| - 1]);
    }
  }

  /** In particular, if the breaker is never pulled, exactly if some event meets the policy. */
  lemma CalledIffPolicyMet(policy: Confidence, strategies: set<ChainId>, h: seq<Input>, chain: ChainId, id: string)
    requires Undisturbed(strategies, h, chain, id) && NeverHalted(h)
    ensures (exists i :: 0 <= i < |h| && IsFor(h[i], id) && CalledAt(policy, strategies, h, i)) <==>
            (exists i :: 0 <= i < |h| && IsFor(h[i], id) && MeetsPolicy(policy, h[i].event.confidence))
  {
    hide CalledAt, Undisturbed, MaxRank, Run;
    CalledIffCounts(policy, strategies, h, chain, id);
    if i :| 0 <= i < |h| && IsFor(h[i], id) && MeetsPolicy(policy, h[i].event.confidence) {
      var c := FirstMeeting(policy, h, id, i);
      forall k | 0 <= k < c ensures h[..c][k] != Halt {
        assert h[..c][k] == h[k];
      }
      StaysOpen(policy, strategies, h[..c]);
      assert Counts(policy, strategies, h, id, c);
    }
  }

  /** The first event that meets the policy raises the rank. */
  lemma {:induction false} FirstMeeting(policy: Confidence, h: seq<Input>, id: string, i: nat) returns (c: nat)
    requires i < |h| && IsFor(h[i], id) && MeetsPolicy(policy, h[i].event.confidence)
    ensures c <= i && IsFor(h[c], id) && MeetsPolicy(policy, h[c].event.confidence)
    ensures Gateway.Rank(h[c].event.confidence) > MaxRank(h[..c], id)
    decreases i
  {
    hide MaxRank;
    if j :| 0 <= j < i && IsFor(h[j], id) && MeetsPolicy(policy, h[j].event.confidence) {
      c := FirstMeeting(policy, h, id, j);
    } else {
      c := i;
      RankRange(h[..i], id);
      if MaxRank(h[..i], id) >= 0 {
        var k :| 0 <= k < |h[..i]| && IsFor(h[..i][k], id)
                 && Gateway.Rank(h[..i][k].event.confidence) == MaxRank(h[..i], id);
        assert h[..i][k] == h[k] && !MeetsPolicy(policy, h[k].event.confidence);
      }
    }
  }

  /** After an attempt has returned a transaction, the id is never attempted again. */
  lemma NeverCalledAfterRelease(policy: Confidence, strategies: set<ChainId>, h: seq<Input>, chain: ChainId, id: string,
                                i: nat, k: nat)
    requires Undisturbed(strategies, h, chain, id) && i < k < |h|
    requires IsFor(h[i], id) && CalledAt(policy, strategies, h, i) && h[i].outcome.Some?
    requires IsFor(h[k], id)
    ensures !CalledAt(policy, strategies, h, k)
  {
    hide CalledAt, Undisturbed, MaxRank;
    WhenCalled(policy, strategies, h, chain, id, k);
    CalledAtPrefix(policy, strategies, h, i);
    assert h[..i + 1][i] == h[i];
    ReturnedStays(policy, strategies, h, id, i + 1, k);
  }

  lemma {:induction false} ReturnedStays(policy: Confidence, strategies: set<ChainId>, h: seq<Input>, id: string,
                                         i: nat, k: nat)
    requires i <= k <= |h| && Returned(policy, strategies, h[..i], id).Some?
    ensures Returned(policy, strategies, h[..k], id).Some?
    decreases k
  {
    if i < k {
      ReturnedStays(policy, strategies, h, id, i, k - 1);
      assert h[..k][..k - 1] == h[..k - 1];
    }
  }

  /** What a pulled breaker does: an event that arrives while
      halted, at the highest confidence, is recorded and never attempted again, and resuming
      does not change that. */
  lemma HaltedEventIsStranded(policy: Confidence, strategies: set<ChainId>, e: Event, later: Event,
                              outcome: Option<string>)
    requires e.confidence == Finalized && later.burnTxId == e.burnTxId && later.chain == e.chain
    ensures var h := [Halt, Detected(e, outcome), Resume, Detected(later, outcome)];
            forall i :: 0 <= i < |h| ==> !CalledAt(policy, strategies, h, i)
  {
    hide Run, FindRecord, Handle;
    var h := [Halt, Detected(e, outcome), Resume, Detected(later, outcome)];
    var r := ReleaseRecord(e.burnTxId, e.chain, e.confidence, None);
    assert h[..0] == [] && h[..1] == [] + [Halt] && h[..2] == h[..1] + [Detected(e, outcome)]
        && h[..3] == h[..2] + [Resume];
    NothingRun(policy, strategies);
    RunOneMore(policy, strategies, [], Halt);
    RunOneMore(policy, strategies, h[..1], Detected(e, outcome));
    RunOneMore(policy, strategies, h[..2], Resume);
    RecordedWhileHalted(policy, strategies, e, outcome);
    NotAttemptedAgain(policy, strategies, r, later);
    assert Run(policy, strategies, h[..3]) == RouterState({(e.chain, e.burnTxId)}, [r], false);
  }

  lemma NothingRun(policy: Confidence, strategies: set<ChainId>)
    ensures Run(policy, strategies, []) == EMPTY
  {
  }

  lemma RecordedWhileHalted(policy: Confidence, strategies: set<ChainId>, e: Event, outcome: Option<string>)
    ensures var halted := Handle(policy, strategies, EMPTY, Halt);
            var r := ReleaseRecord(e.burnTxId, e.chain, e.confidence, None);
            && halted == RouterState({}, [], true) && !Attempts(policy, strategies, halted, e)
            && var seen := Handle(policy, strategies, halted, Detected(e, outcome));
               && seen == RouterState({(e.chain, e.burnTxId)}, [r], true)
               && Handle(policy, strategies, seen, Resume) == seen.(halted := false)
  {
  }

  lemma NotAttemptedAgain(policy: Confidence, strategies: set<ChainId>, r: ReleaseRecord, later: Event)
    requires r.confidence == Finalized && later.burnTxId == r.burnTxId && later.chain == r.chain
    ensures !Attempts(policy, strategies, RouterState({(r.chain, r.burnTxId)}, [r], false), later)
  {
    FindAppended([], r, r.burnTxId);
    assert [] + [r] == [r];
  }

  lemma RunOneMore(policy: Confidence, strategies: set<ChainId>, h: seq<Input>, x: Input)
    ensures Run(policy, strategies, h + [x]) == Handle(policy, strategies, Run(policy, strategies, h), x)
  {
    assert (h + [x])[..|h|] == h;
  }
}
