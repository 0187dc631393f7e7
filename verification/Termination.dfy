/** What `Serve` waits for always moves: its locks, the timers' callbacks and the
    goroutines it joins at the end. */
module Termination {
  import opened Basics
  import opened Lifecycle
  import opened Control
  import opened Facts
  import opened Sessions
  import opened Invariant
  import opened AutoStops
  import opened StopSafety
  import opened Progress
  import opened Reachable

  /** The reader of session `sid`, which is closed, can exit. */
  ghost predicate CanFinish(s: State, sid: Sid) {
    Closed(s.d, sid) && !IsDone(s.d, sid) && exists s' :: OutsideStep(s, s', FinishReader(sid))
  }

  predicate Live(s: State, t: Tid) {
    t in s.threads && s.threads[t] != Exited
  }

  /** `u` is closing session `sid`, and moves. */
  ghost predicate IsClosing(s: State, sid: Sid, u: Tid) {
    Live(s, u) && sid in ClosingOf(s.threads[u]) && Unblocks(s, u, 2)
  }

  /** A watcher waits for a reader that can exit, or for the goroutine that is closing
      its session. */
  ghost predicate WatchEnds(s: State, t: Tid) {
    && t.Watcher? && t in s.threads && s.threads[t] == Watching(Watch)
    && (CanFinish(s, t.sid) || exists u :: IsClosing(s, t.sid, u))
  }

  /** At the wait for the timers some callback is still running, and every one that is
      moves. */
  ghost predicate TimersMove(s: State) {
    && (exists id: TimerId :: Live(s, Callback(id)))
    && forall id: TimerId {:trigger Live(s, Callback(id))} :: Live(s, Callback(id)) ==> Unblocks(s, Callback(id), 3)
  }

  /** At the wait for the goroutines every one that has not exited moves; once all have,
      the packet loop does. */
  ghost predicate GroupMoves(s: State) {
    && (AllExited(s) ==> CanStep(s, Loop))
    && forall t {:trigger Live(s, t)} :: Live(s, t) && t != Loop ==> Unblocks(s, t, 3) || WatchEnds(s, t)
  }

  ghost predicate ServeMoves(s: State)
    requires Loop in s.threads
  {
    var pc := s.threads[Loop];
    if pc == Serving(WaitTimers) && s.d.p.timers.waiting != 0 then TimersMove(s)
    else if pc == Serving(WaitGroup) then GroupMoves(s)
    else pc == Serving(Returned) || Unblocks(s, Loop, 3)
  }

  lemma CallbackMoves(s: State, id: TimerId)
    requires Inv(s) && StopInv(s) && Live(s, Callback(id))
    ensures Unblocks(s, Callback(id), 3)
  {
    assert At(s, Callback(id));
    NoDeadlock(s, Callback(id));
  }

  lemma TimersDrain(s: State)
    requires Inv(s) && StopInv(s) && s.threads[Loop] == Serving(WaitTimers) && s.d.p.timers.waiting != 0
    ensures TimersMove(s)
  {
    assert At(s, Loop);
    forall id ensures id !in s.d.p.timers.alarms { assert StopAt(s, id); }
    assert s.d.p.timers.alarms == map[];
    var id :| id in s.d.h.callbacks;
    assert StopAt(s, id);
    assert Live(s, Callback(id));
    forall id: TimerId {:trigger Live(s, Callback(id))} | Live(s, Callback(id)) ensures Unblocks(s, Callback(id), 3) {
      CallbackMoves(s, id);
    }
  }

  /** A watcher that is left waits for a session that is closed or being closed. */
  lemma WatchersDrain(s: State, sid: Sid)
    requires Inv(s) && StopInv(s) && s.threads[Loop] == Serving(WaitGroup)
    requires Watcher(sid) in s.threads && s.threads[Watcher(sid)] == Watching(Watch) && !IsDone(s.d, sid)
    ensures WatchEnds(s, Watcher(sid))
  {
    assert At(s, Loop) && At(s, Watcher(sid)) && SessionAt(s, sid);
    if s.d.sess[sid].closed {
      var d' := Outcome(s.d, FinishReader(sid));
      assert OutsideStep(s, State(d', s.threads, s.l), FinishReader(sid));
    } else {
      var u := s.l.admission.value;
      OwnerHolds(s, u);
      AdmissionMoves(s, u);
      assert IsClosing(s, sid, u);
    }
  }

  lemma JoinedMoves(s: State, t: Tid)
    requires Inv(s) && StopInv(s) && s.threads[Loop] == Serving(WaitGroup) && Live(s, t) && t != Loop
    ensures Unblocks(s, t, 3) || WatchEnds(s, t)
  {
    assert At(s, t);
    if Resting(s.d, t, s.threads[t]) { WatchersDrain(s, t.sid); } else { NoDeadlock(s, t); }
  }

  lemma JoinEnds(s: State)
    requires Inv(s) && s.threads[Loop] == Serving(WaitGroup) && AllExited(s)
    ensures CanStep(s, Loop)
  {
    assert At(s, Loop);
    var s' := State(s.d, s.threads[Loop := Serving(Returned)],
                    LocksAfter(s.l, Loop, s.threads[Loop], Serving(Returned)));
    assert ThreadStep(s, s', Loop, SOME_INPUT);
  }

  lemma GroupDrains(s: State)
    requires Inv(s) && StopInv(s) && s.threads[Loop] == Serving(WaitGroup)
    ensures GroupMoves(s)
  {
    if AllExited(s) { JoinEnds(s); }
    forall t {:trigger Live(s, t)} | Live(s, t) && t != Loop ensures Unblocks(s, t, 3) || WatchEnds(s, t) {
      JoinedMoves(s, t);
    }
  }

  /** In every reachable state what `Serve` waits for moves, until it has returned. */
  lemma NeverStuck(run: seq<State>, acts: seq<Action>, k: nat)
    requires IsRun(run, acts) && k < |run|
    ensures Loop in run[k].threads && ServeMoves(run[k])
  {
    RunFull(run, acts, k);
    ServeDrains(run[k]);
  }

  lemma ServeDrains(s: State)
    requires Inv(s) && StopInv(s)
    ensures Loop in s.threads && ServeMoves(s)
  {
    assert At(s, Loop);
    if s.threads[Loop] == Serving(WaitGroup) { GroupDrains(s); }
    else if s.threads[Loop] == Serving(WaitTimers) && s.d.p.timers.waiting != 0 { TimersDrain(s); }
    else if s.threads[Loop] != Serving(Returned) { NoDeadlock(s, Loop); }
  }

  /** In every reachable state each goroutine that has not ended and waits for a lock
      or a closed session is at most three goroutines away from one that can move. */
  lemma EveryChainMoves(run: seq<State>, acts: seq<Action>, k: nat, t: Tid)
    requires IsRun(run, acts) && k < |run| && t in run[k].threads && !Resting(run[k].d, t, run[k].threads[t])
    ensures Unblocks(run[k], t, 3)
  {
    RunFull(run, acts, k);
    NoDeadlock(run[k], t);
  }
}
