/** Runs built step by step. */
module Runs {
  import opened Store
  import opened Gateway
  import opened MoneyLoop
  import opened ReleaseSafety

  /** A run that keeps the first guard if `timely`, and the second if `saved`. */
  ghost predicate IsRunUnder(timely: bool, saved: bool, ws: seq<World>, ls: seq<Step>) {
    && IsRun(ws, ls)
    && (timely ==> forall i :: 0 <= i < |ls| ==> Timely(ws[i], ls[i]))
    && (saved ==> forall i :: 0 <= i < |ls| ==> ClaimSaved(ws[i], ls[i]))
  }

  function Last(ws: seq<World>): World
    requires ws != []
  {
    ws[|ws| - 1]
  }

  ghost predicate CanTake(timely: bool, saved: bool, w: World, l: Step) {
    Enabled(w, l) && Assumed(w, l) && (timely ==> Timely(w, l)) && (saved ==> ClaimSaved(w, l))
  }

  /** One more step. */
  lemma Take(timely: bool, saved: bool, ws: seq<World>, ls: seq<Step>, l: Step)
    returns (ws': seq<World>, ls': seq<Step>)
    requires ws != [] && IsRunUnder(timely, saved, ws, ls) && CanTake(timely, saved, Last(ws), l)
    ensures ws' == ws + [Next(Last(ws), l)] && ws <= ws' && IsRunUnder(timely, saved, ws', ls')
  {
    hide Enabled, Assumed, Next, Timely, ClaimSaved;
    ws', ls' := ws + [Next(Last(ws), l)], ls + [l];
  }

  /** Everything queued is written. */
  lemma {:induction false} Flush(timely: bool, saved: bool, ws: seq<World>, ls: seq<Step>)
    returns (ws': seq<World>, ls': seq<Step>)
    requires ws != [] && IsRunUnder(timely, saved, ws, ls)
    requires !Last(ws).store.failed && Last(ws).store.written <= |Last(ws).store.log|
    ensures ws <= ws' && ws' != [] && IsRunUnder(timely, saved, ws', ls')
    ensures Last(ws') == Last(ws).(store := Last(ws).store.(written := |Last(ws).store.log|))
    decreases |Last(ws).store.log| - Last(ws).store.written
  {
    hide IsRunUnder;
    ws', ls' := ws, ls;
    if Last(ws).store.written < |Last(ws).store.log| {
      ws', ls' := Take(timely, saved, ws, ls, WriteSnapshot);
      ws', ls' := Flush(timely, saved, ws', ls');
    }
  }

  lemma UnderBoth(ws: seq<World>, ls: seq<Step>)
    requires ws != [] && IsRunUnder(true, true, ws, ls)
    ensures IsGuardedRun(ws, ls)
  {
    hide IsRun, Timely, ClaimSaved;
  }
}
