/** The loops of `ensureRunning` and of the readiness wait inside it, proved to do
    exactly what `PollTrace` says of the world they meet. */
module PollLoop {
  import opened Basics
  import opened PollTrace

  /** `log` is what was done so far and `c` the time now. */
  predicate Upto(w: World, c: Clock, log: seq<Event>) {
    Traced(w, log) && c == ClockAfter(w, log)
  }

  /** Takes the next step of the attempt. */
  method Do(w: World, c: Clock, log: seq<Event>, e: Event) returns (c': Clock, log': seq<Event>)
    requires Upto(w, c, log) && Next(w, log) == Some(e)
    ensures Upto(w, c', log') && log' == log + [e] && c' == Elapse(w, c, e)
    ensures Sent(log') == SentAfter(Sent(log), e)
    ensures Next(w, log') == Follow(w, c', Sent(log'), Last(log), e)
  {
    Extend(w, log, e);
    c', log' := Elapse(w, c, e), log + [e];
  }

  /** `WaitReady` of the panel's probe, from where it is first called. */
  method WaitReady(w: World, c0: Clock, log0: seq<Event>) returns (r: Result, c: Clock, log: seq<Event>)
    requires w.Valid() && Upto(w, c0, log0) && log0 != [] && log0[|log0| - 1] == Adopted && w.probing
    ensures Upto(w, c, log) && log0 < log && Sent(log) == Sent(log0)
    ensures r.Opened? ==>
      && log[|log| - 1] == Probed(Ready) && Next(w, log) == Some(Settle(w, c))
      && Last(log[..|log| - 1]) != Some(Settled)
    ensures !r.Opened? ==> Next(w, log).None? && r == ResultOf(log)
  {
    c, log := c0, log0;
    while true
      invariant Upto(w, c, log) && log0 <= log && Sent(log) == Sent(log0)
      invariant log != [] && (log[|log| - 1] == Adopted || log[|log| - 1] == Waited)
      invariant Next(w, log) == Some(Recheck(w, c))
      decreases w.timeout - c.now
    {
      ghost var before := log;
      var e := Recheck(w, c);
      c, log := Do(w, c, log, e);
      assert log[..|log| - 1] == before;
      if e.probe.Ready? { return Opened, c, log; }
      if w.timeout <= c.now {
        c, log := Do(w, c, log, TimedOut);
        return Error(false), c, log;
      }
      if e.probe == Unknown(true) { return Error(true), c, log; }
      e := Retry(w, c);
      c, log := Do(w, c, log, e);
      if e.TimedOut? { return Error(false), c, log; }
    }
  }

  /** The case of a Running answer: adopt, wait for readiness, settle, probe again, open. */
  method Finish(w: World, c0: Clock, log0: seq<Event>) returns (r: Result, c: Clock, log: seq<Event>)
    requires w.Valid() && Upto(w, c0, log0) && Next(w, log0) == Some(Adopted)
    ensures Upto(w, c, log) && Next(w, log).None? && r == ResultOf(log)
  {
    c, log := Do(w, c0, log0, Adopted);
    if w.probing {
      r, c, log := WaitReady(w, c, log);
      if !r.Opened? { return; }
    }
    var e := Settle(w, c);
    c, log := Do(w, c, log, e);
    if e.TimedOut? { return Error(false), c, log; }
    if w.probing {
      e := Recheck(w, c);
      c, log := Do(w, c, log, e);
      if !e.probe.Ready? { return Error(e.probe == Unknown(true)), c, log; }
    }
    c, log := Do(w, c, log, GateOpened);
    r := Opened;
  }

  /** The cases of an answer that is not Running: the backend is marked, and a Start is
      requested after Offline unless `startSent`. */
  method NotRunning(w: World, c0: Clock, log0: seq<Event>, state: PanelState, startSent: bool)
    returns (refused: bool, sent: bool, c: Clock, log: seq<Event>)
    requires Upto(w, c0, log0) && log0 != [] && log0[|log0| - 1] == Polled(state)
    requires !state.Running? && !state.Other? && Next(w, log0) == Some(Marked)
    requires Sent(log0) == SentAfter(startSent, Polled(state))
    ensures Upto(w, c, log) && sent == Sent(log)
    ensures c.due == c0.due && c0.now <= c.now
    ensures if refused then Next(w, log).None? && ResultOf(log) == Error(true) else Next(w, log) == Some(Tick(w, c))
  {
    refused := false;
    sent := startSent;
    c, log := Do(w, c0, log0, Marked);
    match state
    case Offline =>
      if !startSent {
        c, log := Do(w, c, log, StartSent);
        var answer := w.start(c.used);
        c, log := Do(w, c, log, StartAnswered(answer));
        refused := answer == Refused(true);
        sent := true;
      }
    case Starting => sent := true;
    case Stopping => sent := false;
  }

  /** What the loop does with an answer; `over` says that it returns `r` then. */
  method Handle(w: World, c0: Clock, log0: seq<Event>, e: Event, startSent: bool)
    returns (over: bool, r: Result, sent: bool, c: Clock, log: seq<Event>)
    requires w.Valid() && Upto(w, c0, log0) && log0 != [] && log0[|log0| - 1] == e && (e.Polled? || e.PollFailed?)
    requires Sent(log0) == SentAfter(startSent, e) && Next(w, log0) == Follow(w, c0, Sent(log0), None, e)
    ensures Upto(w, c, log)
    ensures if over then Next(w, log).None? && r == ResultOf(log)
            else Next(w, log) == Some(Tick(w, c)) && sent == Sent(log) && c.due == c0.due && c0.now <= c.now
  {
    over, r, sent, c, log := false, Error(true), startSent, c0, log0;
    if e.PollFailed? { over := e.permanent; }
    else if e.state.Running? {
      r, c, log := Finish(w, c, log);
      over := true;
    } else if !e.state.Other? { over, sent, c, log := NotRunning(w, c, log, e.state, startSent); }
  }

  /** The loop of `ensureRunning`: it does what `PollTrace` says of this world, and
      returns what that comes to. */
  method Poll(w: World) returns (r: Result, c: Clock, log: seq<Event>)
    requires w.Valid()
    ensures Complete(w, log) && c == ClockAfter(w, log) && r == ResultOf(log)
  {
    var startSent, over := false, false;
    c, log := Clock(0, 0, w.interval), [];
    while true
      invariant Upto(w, c, log) && startSent == Sent(log) && Next(w, log) == Some(Ask(w, c))
      invariant c.due - w.interval <= c.now < w.timeout
      decreases w.timeout - c.due
    {
      var e := Ask(w, c);
      c, log := Do(w, c, log, e);
      over, r, startSent, c, log := Handle(w, c, log, e, startSent);
      if over { return; }
      e := Tick(w, c);
      c, log := Do(w, c, log, e);
      if e.TimedOut? { return Error(false), c, log; }
    }
  }

  /** What an attempt promises, over any world.  Every answer in the log is the world's, in
      order.  Start is sent only directly after Offline, the panel is seen stopping between
      two Starts, and so there is at most one Start more than that.  The gate opens only
      rightly.  Any other end is a permanent failure, a failed recheck, or the deadline,
      before which the panel is asked at most once per interval, and once at first. */
  method EnsureRunning(w: World) returns (r: Result, c: Clock, log: seq<Event>)
    requires w.Valid()
    ensures Complete(w, log) && c == ClockAfter(w, log) && r == ResultOf(log)
    ensures forall k | 0 <= k < |log| && Interacts(log[k]) :: IsAnswer(w, Interactions(log[..k]), log[k])
    ensures forall i | 0 <= i < |log| && log[i].StartSent? :: i >= 2 && log[i - 2] == Polled(Offline)
    ensures forall i, j | 0 <= i < j < |log| && log[i].StartSent? && log[j].StartSent? ::
      exists k | i < k < j :: log[k] == Polled(Stopping)
    ensures Count(log, StartSent) <= 1 + Count(log, Polled(Stopping))
    ensures r.Opened? ==> exists n :: OpenedFrom(w, log, n)
    ensures r == Error(false) ==> w.timeout <= c.now || RecheckFailed(log)
    ensures Polls(log) <= w.timeout / w.interval + 1
  {
    r, c, log := Poll(w);
    Promises(w, log);
  }

  lemma Promises(w: World, log: seq<Event>)
    requires w.Valid() && Complete(w, log)
    ensures forall k | 0 <= k < |log| && Interacts(log[k]) :: IsAnswer(w, Interactions(log[..k]), log[k])
    ensures forall i | 0 <= i < |log| && log[i].StartSent? :: i >= 2 && log[i - 2] == Polled(Offline)
    ensures forall i, j | 0 <= i < j < |log| && log[i].StartSent? && log[j].StartSent? ::
      exists k | i < k < j :: log[k] == Polled(Stopping)
    ensures Count(log, StartSent) <= 1 + Count(log, Polled(Stopping))
    ensures ResultOf(log).Opened? ==> exists n :: OpenedFrom(w, log, n)
    ensures ResultOf(log) == Error(false) ==> w.timeout <= ClockAfter(w, log).now || RecheckFailed(log)
    ensures Polls(log) <= w.timeout / w.interval + 1
  {
    StartsAreBounded(w, log);
    PollsAreBounded(w, log);
    if ResultOf(log) == Error(false) { OtherErrorsAreLate(w, log); }
    if ResultOf(log).Opened? { var n := GateOpensRightly(w, log); }
    forall k | 0 <= k < |log| && Interacts(log[k]) ensures IsAnswer(w, Interactions(log[..k]), log[k]) {
      AnswersInOrder(w, log, k);
    }
    forall i | 0 <= i < |log| && log[i].StartSent? ensures i >= 2 && log[i - 2] == Polled(Offline) {
      StartFollowsOffline(w, log, i);
    }
    forall i, j | 0 <= i < j < |log| && log[i].StartSent? && log[j].StartSent?
      ensures exists k | i < k < j :: log[k] == Polled(Stopping)
    {
      StoppingBetweenStarts(w, log, i, j);
    }
  }
}
