/** The assumption about the signer is needed: if an abandoned request may still be carried out
    after the next scan of its key has begun, a deposit is minted twice. */
module MintLimits {
  import opened ByteStrings
  import opened Store
  import opened Gateway
  import opened MoneyLoop
  import opened ReleaseLimits
  import opened Runs
  import Scan

  /** A run that keeps every assumption about the outside world but the one about attempts. */
  ghost predicate IsLaggingRun(ws: seq<World>, ls: seq<Step>) {
    && |ws| == |ls| + 1
    && Initial(ws[0])
    && forall i :: 0 <= i < |ls| ==> && Enabled(ws[i], ls[i]) && ws[i + 1] == Next(ws[i], ls[i])
                                     && (!ls[i].BeginAttempt? ==> Assumed(ws[i], ls[i]))
  }

  lemma RunMayLag(ws: seq<World>, ls: seq<Step>)
    requires IsRunUnder(true, true, ws, ls)
    ensures IsLaggingRun(ws, ls)
  {
    hide Enabled, Assumed, Next;
  }

  lemma TakeLagging(ws: seq<World>, ls: seq<Step>, l: Step) returns (ws': seq<World>, ls': seq<Step>)
    requires ws != [] && IsLaggingRun(ws, ls) && Enabled(Last(ws), l) && (!l.BeginAttempt? ==> Assumed(Last(ws), l))
    ensures ws' != [] && IsLaggingRun(ws', ls') && Last(ws') == Next(Last(ws), l)
  {
    hide Enabled, Assumed, Next;
    ws', ls' := ws + [Next(Last(ws), l)], ls + [l];
  }

  lemma {:induction false} FlushLagging(ws: seq<World>, ls: seq<Step>) returns (ws': seq<World>, ls': seq<Step>)
    requires ws != [] && IsLaggingRun(ws, ls) && !Last(ws).store.failed
        && Last(ws).store.written <= |Last(ws).store.log|
    ensures ws' != [] && IsLaggingRun(ws', ls')
    ensures Last(ws') == Last(ws).(store := Last(ws).store.(written := |Last(ws).store.log|))
    decreases |Last(ws).store.log| - Last(ws).store.written
  {
    hide IsLaggingRun;
    ws', ls' := ws, ls;
    if Last(ws).store.written < |Last(ws).store.log| {
      ws', ls' := TakeLagging(ws, ls, WriteSnapshot);
      ws', ls' := FlushLagging(ws', ls');
    }
  }

  /** The reply is lost, and the next attempt begins before the request is settled. */
  lemma LostReply(w: World)
    requires w == START.(store := w.store, attempts := map[JOB := Calling(0)], calls := [MINT_CALL])
    ensures Enabled(w, AttemptFails(JOB)) && Assumed(w, AttemptFails(JOB))
    ensures Next(w, AttemptFails(JOB)) == w.(store := NoteStore(w.store), attempts := map[JOB := Finishing])
  {
    hide ScriptOf, TagFor;
    assert map[JOB := Calling(0)][JOB := Finishing] == map[JOB := Finishing];
  }

  lemma BeginTooEarly(w: World)
    requires w == START.(store := w.store, calls := [MINT_CALL]) && w.store.db == WithRecord(CLAIMED.(attempts := 1))
    ensures Enabled(w, BeginAttempt(JOB, false))
    ensures Next(w, BeginAttempt(JOB, false)) == w.(attempts := map[JOB := Scanning(START.chain)])
  {
    hide ScriptOf, TagFor;
    assert map[][JOB := Scanning(START.chain)] == map[JOB := Scanning(START.chain)];
  }

  lemma NoteQueues(s: StoreState, db: Db)
    requires s.db == db && !s.failed && s.written <= |s.log|
    ensures Queued(NoteStore(s), db)
  {
  }

  lemma EmptyScan(w: World)
    requires w == START.(store := w.store, attempts := map[JOB := Scanning(START.chain)], calls := [MINT_CALL])
    requires Queued(w.store, WithRecord(CLAIMED.(attempts := 1)))
    ensures var l := EndScan(JOB, Scan.NotFound);
            && Enabled(w, l) && Assumed(w, l)
            && var w' := Next(w, l);
               && w' == START.(store := w'.store, attempts := map[JOB := Recording(|w'.store.log|)],
                   calls := [MINT_CALL])
               && Queued(w'.store, WithRecord(CLAIMED.(attempts := 2)))
  {
    hide ScriptOf, TagFor, NamesNoOther;
    assert Scan.ScanContract(START.chain, START.chain, ScriptOf(TagFor(JOB, 7)), 0, Scan.NotFound);
    assert ClaimOf(CFG, w.store.db, JOB) == Some(Claim(TagFor(JOB, 7), 0, "holder"));
    var recording := Recording(|w.store.log| + 1);
    assert map[JOB := Scanning(START.chain)][JOB := recording] == map[JOB := recording];
  }

  lemma SecondCall(w: World)
    requires w == START.(store := w.store, attempts := map[JOB := Recording(|w.store.log|)], calls := [MINT_CALL])
    requires w.store.db == WithRecord(CLAIMED.(attempts := 2)) && w.store.written == |w.store.log|
    ensures Enabled(w, CallSigner(JOB)) && Assumed(w, CallSigner(JOB))
    ensures Next(w, CallSigner(JOB)).calls == [MINT_CALL, MINT_CALL]
  {
    hide ScriptOf, TagFor;
    assert ClaimOf(CFG, w.store.db, JOB) == Some(Claim(TagFor(JOB, 7), 0, "holder"));
    assert [MINT_CALL] + [MINT_CALL] == [MINT_CALL, MINT_CALL];
  }

  const SECOND_TX: Scan.Tx := Scan.Tx("n", [], MINT_TX.outputs)

  lemma BothBroadcast(w: World)
    requires w.calls == [MINT_CALL, MINT_CALL]
    ensures var l := SignerBroadcasts(0, MINT_TX);
            && Enabled(w, l) && Assumed(w, l)
            && var w1, l1 := Next(w, l), SignerBroadcasts(1, SECOND_TX);
               && Enabled(w1, l1) && Assumed(w1, l1)
               && Next(w1, l1).calls == [MINT_CALL.(state := Broadcast(MINT_TX)),
                   MINT_CALL.(state := Broadcast(SECOND_TX))]
  {
    hide ScriptOf, TagFor;
    assert MINT_TX.outputs[0].script == SECOND_TX.outputs[0].script == ScriptOf(TagFor(JOB, 7));
    var first := MINT_CALL.(state := Broadcast(MINT_TX));
    assert [MINT_CALL, MINT_CALL][0 := first] == [first, MINT_CALL];
  }

  /** Two transactions for one deposit: the first request is carried out only after the scan of
      the second attempt has come back empty. */
  lemma MintedTwiceIfTheSignerLags() returns (ws: seq<World>, ls: seq<Step>)
    ensures ws != [] && IsLaggingRun(ws, ls)
    ensures var calls := Last(ws).calls;
            && |calls| == 2 && calls[0].job == calls[1].job
            && calls[0].state == Broadcast(MINT_TX) && calls[1].state == Broadcast(SECOND_TX)
  {
    hide IsRunUnder, IsLaggingRun, Enabled, Assumed, Next, ScriptOf, TagFor, NoteStore;
    ws, ls := ClaimedRun();
    RunMayLag(ws, ls);
    SendSteps(Last(ws));
    ws, ls := TakeLagging(ws, ls, CallSigner(JOB));
    LostReply(Last(ws));
    NoteQueues(Last(ws).store, WithRecord(CLAIMED.(attempts := 1)));
    ws, ls := TakeLagging(ws, ls, AttemptFails(JOB));
    EndStep(Last(ws));
    ws, ls := TakeLagging(ws, ls, EndAttempt(JOB));
    BeginTooEarly(Last(ws));
    ws, ls := TakeLagging(ws, ls, BeginAttempt(JOB, false));
    EmptyScan(Last(ws));
    ws, ls := TakeLagging(ws, ls, EndScan(JOB, Scan.NotFound));
    ws, ls := FlushLagging(ws, ls);
    SecondCall(Last(ws));
    ws, ls := TakeLagging(ws, ls, CallSigner(JOB));
    BothBroadcast(Last(ws));
    ws, ls := TakeLagging(ws, ls, SignerBroadcasts(0, MINT_TX));
    ws, ls := TakeLagging(ws, ls, SignerBroadcasts(1, SECOND_TX));
  }
}
