/** Auto-stop over whole runs: attempts, delays, timers, and the last Stop. */
module StopDiscipline {
  import opened Basics
  import opened Lifecycle
  import opened Control
  import opened Facts
  import opened Sessions
  import opened Invariant
  import opened Reachable
  import opened AutoStops
  import opened StopLog
  import opened StopSafety
  import E = Effects
  import P = ProxyState

  // ---- Attempts ------------------------------------------------------------------------

  /** Stop number `k` of a run is the next attempt of its generation, at most the
      third, and comes its full delay after its timer was armed. */
  lemma StopsAreNumbered(run: seq<State>, acts: seq<Action>, n: nat, k: nat)
    requires IsRun(run, acts) && n < |run| && k < |run[n].d.h.stops|
    ensures var r := run[n].d.h.stops[k];
      && r.attempt == 1 + SentOf(run[n].d.h.stops[..k], r.gen) && r.attempt <= MAX_AUTO_STOP_ATTEMPTS
      && r.armedAt + P.AttemptDelay(r.attempt, run[n].d.o) <= r.sentAt
  {
    RunFull(run, acts, n);
    assert RecordOk(run[n].d, k);
  }

  /** Two Stops of one generation are at least the later one's retry delay apart. */
  lemma RetriesAreSpaced(run: seq<State>, acts: seq<Action>, n: nat, i: nat, k: nat)
    requires IsRun(run, acts) && n < |run| && i < k < |run[n].d.h.stops|
    requires run[n].d.h.stops[i].gen == run[n].d.h.stops[k].gen
    ensures var r, o := run[n].d.h.stops[k], run[n].d.o;
      && 2 <= r.attempt
      && run[n].d.h.stops[i].sentAt +
         (if r.attempt == 2 then o.autoStopRetryDelay else 2 * o.autoStopRetryDelay) <= r.sentAt
  {
    RunFull(run, acts, n);
    RetrySpacing(run[n].d, i, k);
  }

  lemma RetrySpacing(d: Data, i: nat, k: nat)
    requires LogOk(d) && i < k < |d.h.stops| && d.h.stops[i].gen == d.h.stops[k].gen
    ensures var r, o := d.h.stops[k], d.o;
      && 2 <= r.attempt
      && d.h.stops[i].sentAt + (if r.attempt == 2 then o.autoStopRetryDelay else 2 * o.autoStopRetryDelay) <= r.sentAt
  {
    assert RecordOk(d, k);
    SentBefore(d.h.stops[..k], i);
    assert P.Doubling(0) == 1 && P.Doubling(1) == 2;
  }

  lemma {:induction false} SentBefore(stops: seq<StopRecord>, i: nat)
    requires i < |stops|
    ensures 1 <= SentOf(stops, stops[i].gen)
  {
    if i < |stops| - 1 { SentBefore(stops[..|stops| - 1], i); }
  }

  lemma {:induction false} SentIsBounded(d: Data, n: nat, gen: nat)
    requires LogOk(d) && n <= |d.h.stops|
    ensures SentOf(d.h.stops[..n], gen) <= MAX_AUTO_STOP_ATTEMPTS
  {
    if n > 0 {
      assert RecordOk(d, n - 1);
      assert d.h.stops[..n][..n - 1] == d.h.stops[..n - 1];
      SentIsBounded(d, n - 1, gen);
    }
  }

  /** At most three Stops per stop generation. */
  lemma AtMostThree(run: seq<State>, acts: seq<Action>, n: nat, gen: nat)
    requires IsRun(run, acts) && n < |run|
    ensures SentOf(run[n].d.h.stops, gen) <= MAX_AUTO_STOP_ATTEMPTS
  {
    RunFull(run, acts, n);
    SentIsBounded(run[n].d, |run[n].d.h.stops|, gen);
    assert run[n].d.h.stops[..|run[n].d.h.stops|] == run[n].d.h.stops;
  }

  // ---- The last Stop ----------------------------------------------------------------------

  ghost predicate NoOpening(run: seq<State>, acts: seq<Action>, i: nat, j: nat)
    requires i <= j <= |acts| && |run| == |acts| + 1
  {
    forall k: nat {:trigger OpOf(run[k], acts[k])} | i <= k < j :: !OpOf(run[k], acts[k]).OpenGate?
  }

  /** A Stop is sent with the gate open and no accepted Stop since it opened. */
  lemma SentIsUnaccepted(s: State, s': State, a: Action)
    requires Inv(s) && StopInv(s) && Step(s, s', a) && OpOf(s, a).StopSent?
    ensures s.d.p.ready && !s.d.p.shuttingDown && !s.d.h.stopAccepted && a.Run?
  {
    SentByThread(s, s', a);
    TimerMoves(s, s', a.t, a.x);
    assert At(s, a.t);
  }

  lemma SentByThread(s: State, s': State, a: Action)
    requires Step(s, s', a) && OpOf(s, a).StopSent?
    ensures a.Run? && ThreadStep(s, s', a.t, a.x) && OpOf(s, a) == Plan(s.d, a.t, s.threads[a.t], a.x).op
  {
  }

  lemma AcceptedAt(run: seq<State>, acts: seq<Action>, k: nat)
    requires IsRun(run, acts) && k < |acts|
    ensures var op := OpOf(run[k], acts[k]);
      && (op.StopAccepted? ==> run[k + 1].d.h.stopAccepted)
      && (run[k].d.h.stopAccepted && !op.OpenGate? ==> run[k + 1].d.h.stopAccepted)
      && (op.StopSent? ==> !run[k].d.h.stopAccepted)
  {
    RunFull(run, acts, k);
    assert StepAt(run, acts, k);
    StepOf(run[k], run[k + 1], acts[k]);
    if OpOf(run[k], acts[k]).StopSent? { SentIsUnaccepted(run[k], run[k + 1], acts[k]); }
  }

  lemma {:induction false} StaysAccepted(run: seq<State>, acts: seq<Action>, i: nat, j: nat)
    requires IsRun(run, acts) && i <= j <= |acts| && NoOpening(run, acts, i, j) && run[i].d.h.stopAccepted
    ensures run[j].d.h.stopAccepted
  {
    if i < j {
      StaysAccepted(run, acts, i, j - 1);
      AcceptedAt(run, acts, j - 1);
    }
  }

  /** Between an accepted Stop and the next Stop the gate has reopened. */
  lemma AcceptedStopIsLast(run: seq<State>, acts: seq<Action>, i: nat, j: nat)
    requires IsRun(run, acts) && i < j < |acts|
    requires OpOf(run[i], acts[i]).StopAccepted? && OpOf(run[j], acts[j]).StopSent?
    ensures exists k: nat | i < k < j :: OpOf(run[k], acts[k]).OpenGate?
  {
    AcceptedAt(run, acts, i);
    AcceptedAt(run, acts, j);
    if NoOpening(run, acts, i + 1, j) { StaysAccepted(run, acts, i + 1, j); }
  }

  // ---- Timer accounting -----------------------------------------------------------------

  /** The timer callbacks that have not returned. */
  ghost function RunningCallbacks(s: State): set<TimerId> {
    set t | t in s.threads && t.Callback? && s.threads[t] != Exited :: t.id
  }

  /** At most one timer is unfired; it is `stopTimer` and carries the current stop
      generation; the wait group counts it and the running callbacks. */
  lemma TimersAreAccounted(run: seq<State>, acts: seq<Action>, k: nat)
    requires IsRun(run, acts) && k < |run|
    ensures var m := run[k].d.p.timers;
      && (forall id | id in m.alarms :: m.current == Some(id) && m.alarms[id].gen == m.gen)
      && |m.alarms| <= 1
      && m.waiting == |m.alarms| + |RunningCallbacks(run[k])|
  {
    RunFull(run, acts, k);
    var s := run[k];
    forall id | id in s.d.p.timers.alarms
      ensures s.d.p.timers.current == Some(id) && s.d.p.timers.alarms[id].gen == s.d.p.timers.gen
    {
      assert StopAt(s, id);
    }
    CurrentAlone(s.d.p.timers);
    forall id ensures id in RunningCallbacks(s) <==> id in s.d.h.callbacks { CallbackRuns(s, id); }
    assert RunningCallbacks(s) == s.d.h.callbacks.Keys;
  }

  lemma CallbackRuns(s: State, id: TimerId)
    requires StopInv(s)
    ensures id in RunningCallbacks(s) <==> id in s.d.h.callbacks
  {
    assert StopAt(s, id);
    assert id in RunningCallbacks(s) <==> Callback(id) in s.threads && s.threads[Callback(id)] != Exited;
  }

  lemma CurrentAlone(m: P.Timers)
    requires forall id | id in m.alarms :: m.current == Some(id)
    ensures |m.alarms| <= 1
  {
    if m.alarms != map[] {
      var id :| id in m.alarms;
      assert m.alarms.Keys == {id};
    }
  }

  /** After shutdown no timer is armed and no Stop begins, ever. */
  lemma {:induction false} QuietAfterShutdown(run: seq<State>, acts: seq<Action>, i: nat, j: nat)
    requires IsRun(run, acts) && i <= j < |acts| && run[i].d.p.shuttingDown
    ensures run[j].d.p.shuttingDown && run[j].d.p.timers.alarms == map[] && run[j].d.h.stops == run[i].d.h.stops
  {
    if i < j {
      QuietAfterShutdown(run, acts, i, j - 1);
      NothingAfterShutdown(run, acts, j - 1);
    }
    NothingAfterShutdown(run, acts, j);
  }

  lemma NothingAfterShutdown(run: seq<State>, acts: seq<Action>, k: nat)
    requires IsRun(run, acts) && k < |acts| && run[k].d.p.shuttingDown
    ensures run[k].d.p.timers.alarms == map[]
    ensures run[k + 1].d.p.shuttingDown && run[k + 1].d.h.stops == run[k].d.h.stops
  {
    RunFull(run, acts, k);
    assert StepAt(run, acts, k);
    StepOf(run[k], run[k + 1], acts[k]);
    forall id ensures id !in run[k].d.p.timers.alarms { assert StopAt(run[k], id); }
    if OpOf(run[k], acts[k]).StopSent? { SentIsUnaccepted(run[k], run[k + 1], acts[k]); }
    StopsFrame(run[k].d, run[k + 1].d, OpOf(run[k], acts[k]));
  }

  lemma StopsFrame(d: Data, d': Data, op: Op)
    requires Applied(d, d', op) && !op.StopSent?
    ensures d'.h.stops == d.h.stops && (d.p.shuttingDown ==> d'.p.shuttingDown)
  {
    if !op.Teared? { E.GateFrame(d, d', op); }
  }
}
