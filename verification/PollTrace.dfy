/** What an attempt of `ensureRunning` does, event by event, against any world of
    answers and delays, and what therefore holds of every attempt. */
module PollTrace {
  import opened Basics

  datatype Reply = Answer(state: PanelState) | Failed(permanent: bool)

  datatype CallReply = Accepted | Refused(permanent: bool)

  /** What the outside world will answer: to interaction number i the panel's status or
      its answer to a Start, and how long the interaction takes.  `timeout` is the
      startup deadline, counted from the start of the attempt. */
  datatype World = World(
    status: nat -> Reply, start: nat -> CallReply, latency: nat -> Time,
    interval: Time, timeout: Time, settle: Time, probing: bool)
  {
    predicate Valid() { 0 < interval < timeout }
  }

  /** A readiness probe's verdict: ready, confirmed not ready, inconclusive, or not
      made because the deadline had passed. */
  datatype Probe = Ready | NotReady | Unknown(permanent: bool) | Expired

  datatype Event =
    | Polled(state: PanelState)
    | PollFailed(permanent: bool)
    | Marked                            // markBackendNotRunning
    | StartSent
    | StartAnswered(answer: CallReply)
    | Ticked
    | Adopted                           // backendRunning is set
    | Probed(probe: Probe)
    | Waited                            // the pause between two readiness probes
    | Settled
    | TimedOut                          // a pause is cut short by the deadline
    | GateOpened

  datatype Result = Opened | Error(permanent: bool)

  // ---- Time ---------------------------------------------------------------------------

  /** Time passed, interactions made, and when the next tick is due at the earliest. */
  datatype Clock = Clock(now: Time, used: nat, due: Time)

  function Max(a: Time, b: Time): Time { if a < b then b else a }

  /** The world's clock after `e`; interaction number i takes `latency(i)`. */
  function Elapse(w: World, c: Clock, e: Event): Clock {
    if Interacts(e) then c.(now := c.now + w.latency(c.used), used := c.used + 1)
    else
      match e
      case Ticked => c.(now := Max(c.now, c.due), due := c.due + w.interval)
      case Waited => c.(now := c.now + w.interval)
      case Settled => c.(now := c.now + w.settle)
      case TimedOut => c.(now := Max(c.now, w.timeout))
      case _ => c
  }

  function ClockAfter(w: World, log: seq<Event>): Clock {
    if log == [] then Clock(0, 0, w.interval) else Elapse(w, ClockAfter(w, log[..|log| - 1]), log[|log| - 1])
  }

  /** The events that are an answer of the panel. */
  predicate Interacts(e: Event) {
    e.Polled? || e.PollFailed? || e.StartAnswered? || (e.Probed? && !e.probe.Expired?)
  }

  function Interactions(log: seq<Event>): nat {
    if log == [] then 0 else Interactions(log[..|log| - 1]) + (if Interacts(log[|log| - 1]) then 1 else 0)
  }

  // ---- What comes next -------------------------------------------------------------------

  /** The loop's `startSent`, replayed: a Start was sent or seen under way since the
      panel was last seen stopping. */
  predicate Sent(log: seq<Event>) {
    log != [] && SentAfter(Sent(log[..|log| - 1]), log[|log| - 1])
  }

  predicate SentAfter(sent: bool, e: Event) {
    e.StartSent? || e == Polled(Starting) || (sent && e != Polled(Stopping))
  }

  function Last(log: seq<Event>): Option<Event> {
    if log == [] then None else Some(log[|log| - 1])
  }

  function Ask(w: World, c: Clock): Event {
    match w.status(c.used)
    case Answer(state) => Polled(state)
    case Failed(permanent) => PollFailed(permanent)
  }

  function Verdict(reply: Reply): Probe {
    match reply
    case Failed(permanent) => Unknown(permanent)
    case Answer(state) => if state.Running? then Ready else NotReady
  }

  function Recheck(w: World, c: Clock): Event {
    Probed(if w.timeout <= c.now then Expired else Verdict(w.status(c.used)))
  }

  /** The three pauses; a context that is done is noticed first. */
  function Tick(w: World, c: Clock): Event {
    if Max(c.now, c.due) < w.timeout then Ticked else TimedOut
  }

  function Retry(w: World, c: Clock): Event {
    if c.now + w.interval < w.timeout then Waited else TimedOut
  }

  function Settle(w: World, c: Clock): Event {
    if w.settle == 0 || c.now + w.settle < w.timeout then Settled else TimedOut
  }

  /** What follows `e`, where `before` came before it; nothing, if the attempt ends. */
  function Follow(w: World, c: Clock, sent: bool, before: Option<Event>, e: Event): Option<Event> {
    match e
    case Polled(state) => Some(if state.Running? then Adopted else if state.Other? then Tick(w, c) else Marked)
    case PollFailed(permanent) => if permanent then None else Some(Tick(w, c))
    case Marked => Some(if before == Some(Polled(Offline)) && !sent then StartSent else Tick(w, c))
    case StartSent => Some(StartAnswered(w.start(c.used)))
    case StartAnswered(answer) => if answer == Refused(true) then None else Some(Tick(w, c))
    case Ticked => Some(Ask(w, c))
    case Adopted => Some(if w.probing then Recheck(w, c) else Settle(w, c))
    case Waited => Some(Recheck(w, c))
    case Probed(probe) =>
      if before == Some(Settled) then (if probe.Ready? then Some(GateOpened) else None)
      else if probe.Ready? then Some(Settle(w, c))
      else if probe.Expired? || w.timeout <= c.now then Some(TimedOut)
      else if probe == Unknown(true) then None
      else Some(Retry(w, c))
    case Settled => Some(if w.probing then Recheck(w, c) else GateOpened)
    case TimedOut => None
    case GateOpened => None
  }

  function Next(w: World, log: seq<Event>): Option<Event> {
    if log == [] then Some(Ask(w, ClockAfter(w, log)))
    else Follow(w, ClockAfter(w, log), Sent(log), Last(log[..|log| - 1]), log[|log| - 1])
  }

  /** `log` is what an attempt does, as far as it goes. */
  predicate Traced(w: World, log: seq<Event>) {
    log == [] ||
    (Traced(w, log[..|log| - 1]) && Next(w, log[..|log| - 1]) == Some(log[|log| - 1]))
  }

  /** ... and all it does. */
  predicate Complete(w: World, log: seq<Event>) {
    Traced(w, log) && Next(w, log).None?
  }

  function ResultOf(log: seq<Event>): Result {
    if log == [] then Error(false)
    else
      var last := log[|log| - 1];
      if last.GateOpened? then Opened
      else Error(last in {PollFailed(true), StartAnswered(Refused(true)), Probed(Unknown(true))})
  }

  lemma Extend(w: World, log: seq<Event>, e: Event)
    requires Traced(w, log) && Next(w, log) == Some(e)
    ensures Traced(w, log + [e])
    ensures ClockAfter(w, log + [e]) == Elapse(w, ClockAfter(w, log), e)
    ensures Sent(log + [e]) == SentAfter(Sent(log), e) && Last(log + [e]) == Some(e)
    ensures Next(w, log + [e]) ==
      Follow(w, Elapse(w, ClockAfter(w, log), e), SentAfter(Sent(log), e), Last(log), e)
  {
    assert (log + [e])[..|log|] == log;
  }

  lemma {:induction false} PrefixTraced(w: World, log: seq<Event>, n: nat)
    requires Traced(w, log) && n <= |log|
    ensures Traced(w, log[..n])
    ensures n < |log| ==> Next(w, log[..n]) == Some(log[n])
  {
    if n < |log| - 1 {
      PrefixTraced(w, log[..|log| - 1], n);
      assert log[..|log| - 1][..n] == log[..n];
    } else if n == |log| { assert log[..n] == log; }
  }

  /** Event `k` is what follows the one before it. */
  lemma Previous(w: World, log: seq<Event>, k: nat)
    requires Traced(w, log) && 0 < k < |log|
    ensures Follow(w, ClockAfter(w, log[..k]), Sent(log[..k]), if k == 1 then None else Some(log[k - 2]), log[k - 1])
            == Some(log[k])
    ensures ClockAfter(w, log[..k]) == Elapse(w, ClockAfter(w, log[..k - 1]), log[k - 1])
  {
    PrefixTraced(w, log, k);
    assert log[..k][..k - 1] == log[..k - 1];
  }

  lemma First(w: World, log: seq<Event>)
    requires Traced(w, log) && log != []
    ensures log[0] == Ask(w, Clock(0, 0, w.interval)) && ClockAfter(w, log[..0]) == Clock(0, 0, w.interval)
  {
    PrefixTraced(w, log, 0);
  }

  /** The world determines the attempt. */
  lemma {:induction false} TraceIsUnique(w: World, a: seq<Event>, b: seq<Event>)
    requires Complete(w, a) && Complete(w, b)
    ensures a == b
  {
    var n := Agree(w, a, b, if |a| < |b| then |a| else |b|);
    assert a[..|a|] == a && b[..|b|] == b;
    if |a| < |b| { PrefixTraced(w, b, |a|); } else if |b| < |a| { PrefixTraced(w, a, |b|); }
  }

  lemma SameNext(w: World, a: seq<Event>, b: seq<Event>, n: nat)
    requires n < |a| && n < |b| && a[..n] == b[..n]
    requires Next(w, a[..n]) == Some(a[n]) && Next(w, b[..n]) == Some(b[n])
    ensures a[..n + 1] == b[..n + 1]
  {
    assert a[..n + 1] == a[..n] + [a[n]] && b[..n + 1] == b[..n] + [b[n]];
  }

  lemma {:induction false} Agree(w: World, a: seq<Event>, b: seq<Event>, n: nat) returns (m: nat)
    requires Traced(w, a) && Traced(w, b) && n <= |a| && n <= |b|
    ensures m == n && a[..n] == b[..n]
  {
    m := n;
    if n > 0 {
      var _ := Agree(w, a, b, n - 1);
      PrefixTraced(w, a, n - 1);
      PrefixTraced(w, b, n - 1);
      SameNext(w, a, b, n - 1);
    }
  }

  // ---- Answers ------------------------------------------------------------------------------

  lemma {:induction false} UsedIsCount(w: World, log: seq<Event>)
    ensures ClockAfter(w, log).used == Interactions(log)
  {
    if log != [] { UsedIsCount(w, log[..|log| - 1]); }
  }

  predicate IsAnswer(w: World, i: nat, e: Event) {
    match e
    case Polled(state) => w.status(i) == Answer(state)
    case PollFailed(permanent) => w.status(i) == Failed(permanent)
    case StartAnswered(answer) => w.start(i) == answer
    case Probed(probe) => probe == Verdict(w.status(i))
    case _ => false
  }

  /** The i-th interaction of an attempt is the world's i-th answer. */
  lemma AnswersInOrder(w: World, log: seq<Event>, k: nat)
    requires Traced(w, log) && k < |log| && Interacts(log[k])
    ensures IsAnswer(w, Interactions(log[..k]), log[k])
  {
    UsedIsCount(w, log[..k]);
    if k == 0 { First(w, log); }
    else {
      Previous(w, log, k);
      FollowsAnswer(w, ClockAfter(w, log[..k]), Sent(log[..k]), if k == 1 then None else Some(log[k - 2]), log[k - 1]);
    }
  }

  lemma FollowsAnswer(w: World, c: Clock, sent: bool, before: Option<Event>, e: Event)
    ensures var next := Follow(w, c, sent, before, e);
      next.Some? && Interacts(next.value) ==> IsAnswer(w, c.used, next.value)
  {
  }

  // ---- Starts ----------------------------------------------------------------------------------

  function Count(log: seq<Event>, e: Event): nat {
    if log == [] then 0 else Count(log[..|log| - 1], e) + (if log[|log| - 1] == e then 1 else 0)
  }

  /** At most one Start more than the times the panel was seen stopping. */
  lemma {:induction false} StartsAreBounded(w: World, log: seq<Event>)
    requires Traced(w, log)
    ensures Count(log, StartSent) <= Count(log, Polled(Stopping)) + (if Sent(log) then 1 else 0)
  {
    if log != [] { StartsAreBounded(w, log[..|log| - 1]); }
  }

  /** A Start is sent exactly directly after an Offline answer, if none was sent or seen
      under way since the panel was last seen stopping. */
  lemma StartFollowsOffline(w: World, log: seq<Event>, i: nat)
    requires Traced(w, log) && i < |log|
    ensures log[i].StartSent? <==>
      i >= 2 && log[i - 2] == Polled(Offline) && log[i - 1] == Marked && !Sent(log[..i])
  {
    if i == 0 { First(w, log); }
    else {
      Previous(w, log, i);
      FollowsOffline(w, ClockAfter(w, log[..i]), Sent(log[..i]), if i == 1 then None else Some(log[i - 2]), log[i - 1]);
    }
  }

  lemma FollowsOffline(w: World, c: Clock, sent: bool, before: Option<Event>, e: Event)
    ensures Follow(w, c, sent, before, e) == Some(StartSent) <==>
      before == Some(Polled(Offline)) && e == Marked && !sent
  {
  }

  lemma {:induction false} SentPersists(log: seq<Event>, i: nat, n: nat)
    requires i < n <= |log| && log[i].StartSent?
    requires forall k | i < k < n :: log[k] != Polled(Stopping)
    ensures Sent(log[..n])
  {
    assert log[..n][..n - 1] == log[..n - 1];
    if i < n - 1 { SentPersists(log, i, n - 1); }
  }

  /** Between two Starts the panel was seen stopping. */
  lemma StoppingBetweenStarts(w: World, log: seq<Event>, i: nat, j: nat)
    requires Traced(w, log) && i < j < |log| && log[i].StartSent? && log[j].StartSent?
    ensures exists k | i < k < j :: log[k] == Polled(Stopping)
  {
    StartFollowsOffline(w, log, j);
    if forall k | i < k < j :: log[k] != Polled(Stopping) { SentPersists(log, i, j); }
  }

  /** A panel that is offline, stopping and offline again: two Starts are sent. */
  lemma DuplicateStart() returns (w: World, log: seq<Event>)
    ensures w.Valid() && Complete(w, log) && Count(log, StartSent) == 2
    ensures forall i :: w.start(i) == Accepted
  {
    w := World(
      (i: nat) => if i == 2 then Answer(Stopping) else Answer(Offline), (i: nat) => Accepted, (i: nat) => 0,
      1, 3, 0, false);
    log := StartOnce(w, []);
    log := StopOnce(w, log);
    log := StartOnce(w, log);
    log := DuplicateStep(w, log, TimedOut);
  }

  /** A tick, a Stopping answer, and another tick. */
  lemma StopOnce(w: World, log0: seq<Event>) returns (log: seq<Event>)
    requires Traced(w, log0) && Next(w, log0) == Some(Ticked) && w.interval == 1 && w.timeout == 3
    requires w.status(ClockAfter(w, log0).used) == Answer(Stopping)
    requires ClockAfter(w, log0).now == 0 && ClockAfter(w, log0).due == 1 && forall i :: w.latency(i) == 0
    ensures Traced(w, log) && !Sent(log) && Count(log, StartSent) == Count(log0, StartSent)
    ensures ClockAfter(w, log) == Clock(2, ClockAfter(w, log0).used + 1, 3)
    ensures Next(w, log) == Some(Ask(w, ClockAfter(w, log)))
  {
    log := DuplicateStep(w, log0, Ticked);
    log := DuplicateStep(w, log, Polled(Stopping));
    log := DuplicateStep(w, log, Marked);
    log := DuplicateStep(w, log, Ticked);
  }

  /** An Offline answer and an accepted Start. */
  lemma StartOnce(w: World, log0: seq<Event>) returns (log: seq<Event>)
    requires Traced(w, log0) && Next(w, log0) == Some(Polled(Offline)) && !Sent(log0)
    requires w.start(ClockAfter(w, log0).used + 1) == Accepted && forall i :: w.latency(i) == 0
    ensures Traced(w, log) && Sent(log)
    ensures ClockAfter(w, log) == ClockAfter(w, log0).(used := ClockAfter(w, log0).used + 2)
    ensures Next(w, log) == Some(Tick(w, ClockAfter(w, log)))
    ensures Count(log, StartSent) == Count(log0, StartSent) + 1
  {
    log := DuplicateStep(w, log0, Polled(Offline));
    log := DuplicateStep(w, log, Marked);
    log := DuplicateStep(w, log, StartSent);
    log := DuplicateStep(w, log, StartAnswered(Accepted));
  }

  lemma DuplicateStep(w: World, log: seq<Event>, e: Event) returns (log': seq<Event>)
    requires Traced(w, log) && Next(w, log) == Some(e)
    ensures log' == log + [e] && Traced(w, log')
    ensures ClockAfter(w, log') == Elapse(w, ClockAfter(w, log), e)
    ensures Sent(log') == SentAfter(Sent(log), e) && Last(log') == Some(e)
    ensures Next(w, log') ==
      Follow(w, Elapse(w, ClockAfter(w, log), e), SentAfter(Sent(log), e), Last(log), e)
    ensures Count(log', StartSent) == Count(log, StartSent) + (if e.StartSent? then 1 else 0)
  {
    log' := log + [e];
    Extend(w, log, e);
    assert log'[..|log|] == log;
  }

  // ---- The gate -------------------------------------------------------------------------------

  /** A pause or an unsuccessful probe of the wait for readiness. */
  predicate KeepsWaiting(e: Event) {
    e.Waited? || e == Probed(NotReady) || e == Probed(Unknown(false))
  }

  /** What each event of the opening comes after. */
  predicate ComesAfter(w: World, before: Option<Event>, e: Event, next: Event) {
    match next
    case GateOpened => (e.Settled? && !w.probing) || (e == Probed(Ready) && before == Some(Settled))
    case Settled => (e.Adopted? && !w.probing) || (e == Probed(Ready) && before != Some(Settled))
    case Adopted => e == Polled(Running)
    case Probed(_) => e.Waited? || (w.probing && (e.Adopted? || e.Settled?))
    case Waited => e.Probed? && KeepsWaiting(e) && before != Some(Settled)
    case _ => true
  }

  lemma FollowsRightly(w: World, c: Clock, sent: bool, before: Option<Event>, e: Event)
    ensures var next := Follow(w, c, sent, before, e);
      next.Some? ==> ComesAfter(w, before, e, next.value)
  {
  }

  predicate OrderedAt(w: World, log: seq<Event>, k: nat)
    requires k < |log|
  {
    if k == 0 then log[k].Polled? || log[k].PollFailed?
    else ComesAfter(w, if k == 1 then None else Some(log[k - 2]), log[k - 1], log[k])
  }

  lemma InOrder(w: World, log: seq<Event>, k: nat)
    requires Traced(w, log) && k < |log|
    ensures OrderedAt(w, log, k)
  {
    if k == 0 { First(w, log); }
    else {
      Previous(w, log, k);
      FollowsRightly(w, ClockAfter(w, log[..k]), Sent(log[..k]), if k == 1 then None else Some(log[k - 2]), log[k - 1]);
    }
  }

  /** Running was answered at `n` and adopted, and up to `m` the wait for readiness goes on. */
  predicate WaitingSince(log: seq<Event>, n: nat, m: nat) {
    && n < m < |log| && log[n] == Polled(Running) && log[n + 1] == Adopted
    && forall k | n + 2 <= k < m :: KeepsWaiting(log[k])
  }

  lemma {:induction false} StillWaiting(w: World, log: seq<Event>, m: nat) returns (n: nat)
    requires m < |log| && forall k | 0 <= k <= m :: OrderedAt(w, log, k)
    requires log[m].Adopted? || log[m].Waited? || (log[m].Probed? && m > 0 && log[m - 1] != Settled)
    ensures WaitingSince(log, n, m) && (log[m].Adopted? || w.probing)
  {
    assert OrderedAt(w, log, m);
    if log[m].Adopted? { n := m - 1; }
    else {
      assert OrderedAt(w, log, m - 1);
      n := StillWaiting(w, log, m - 1);
      assert log[m - 1].Adopted? || KeepsWaiting(log[m - 1]);
    }
  }

  /** The gate was opened rightly: after a Running answer was adopted, and where a probe
      is configured after a wait that ended with its only success and, once settled, one
      more success. */
  predicate OpenedFrom(w: World, log: seq<Event>, n: nat) {
    var m := |log|;
    && n + 4 <= m && log[n] == Polled(Running) && log[n + 1] == Adopted && log[m - 1] == GateOpened
    && if w.probing then
         && n + 6 <= m && log[m - 2] == Probed(Ready) && log[m - 3] == Settled && log[m - 4] == Probed(Ready)
         && forall k | n + 2 <= k < m - 4 :: KeepsWaiting(log[k])
       else n + 4 == m && log[n + 2] == Settled
  }

  lemma GateOpensRightly(w: World, log: seq<Event>) returns (n: nat)
    requires Traced(w, log) && log != [] && log[|log| - 1] == GateOpened
    ensures OpenedFrom(w, log, n)
  {
    forall k | 0 <= k < |log| ensures OrderedAt(w, log, k) { InOrder(w, log, k); }
    n := OpensRightly(w, log);
  }

  lemma OpensRightly(w: World, log: seq<Event>) returns (n: nat)
    requires log != [] && log[|log| - 1] == GateOpened && forall k | 0 <= k < |log| :: OrderedAt(w, log, k)
    ensures OpenedFrom(w, log, n)
  {
    var m := |log|;
    assert OrderedAt(w, log, m - 1) && OrderedAt(w, log, m - 2) && OrderedAt(w, log, m - 3);
    if log[m - 2].Probed? {
      assert OrderedAt(w, log, m - 4);
      n := StillWaiting(w, log, m - 4);
    } else if log[m - 3].Probed? {
      n := StillWaiting(w, log, m - 3);
    } else { n := m - 4; }
  }

  // ---- The deadline ------------------------------------------------------------------------------

  /** The panel is polled and probed only before the deadline. */
  lemma AsksInTime(w: World, log: seq<Event>, k: nat)
    requires w.Valid() && Traced(w, log) && k < |log|
    requires log[k].Polled? || log[k].PollFailed? || (log[k].Probed? && !log[k].probe.Expired?)
    ensures ClockAfter(w, log[..k]).now < w.timeout
  {
    if k == 0 { First(w, log); }
    else {
      Previous(w, log, k);
      if log[k - 1].Ticked? { TicksInTime(w, log, k - 1); }
    }
  }

  lemma TicksInTime(w: World, log: seq<Event>, k: nat)
    requires Traced(w, log) && k < |log| && log[k].Ticked?
    ensures Elapse(w, ClockAfter(w, log[..k]), Ticked).now < w.timeout
  {
    if k == 0 { First(w, log); }
    else {
      Previous(w, log, k);
      FollowsTick(w, ClockAfter(w, log[..k]), Sent(log[..k]), if k == 1 then None else Some(log[k - 2]), log[k - 1]);
    }
  }

  lemma FollowsTick(w: World, c: Clock, sent: bool, before: Option<Event>, e: Event)
    requires Follow(w, c, sent, before, e) == Some(Ticked)
    ensures Max(c.now, c.due) < w.timeout
  {
  }

  /** The recheck after settling failed. */
  predicate RecheckFailed(log: seq<Event>) {
    |log| >= 2 && log[|log| - 2] == Settled && log[|log| - 1].Probed? && !log[|log| - 1].probe.Ready?
  }

  /** An attempt that ends without opening the gate and without a permanent failure has
      reached the deadline, or its last probe failed. */
  lemma OtherErrorsAreLate(w: World, log: seq<Event>)
    requires w.Valid() && Complete(w, log) && ResultOf(log) == Error(false)
    ensures w.timeout <= ClockAfter(w, log).now || RecheckFailed(log)
  {
  }

  function Polls(log: seq<Event>): nat {
    if log == [] then 0
    else Polls(log[..|log| - 1]) + (if log[|log| - 1].Polled? || log[|log| - 1].PollFailed? then 1 else 0)
  }

  lemma {:induction false} TicksAreSpaced(w: World, log: seq<Event>)
    requires w.Valid() && Traced(w, log)
    ensures ClockAfter(w, log).due == Count(log, Ticked) * w.interval + w.interval
    ensures Count(log, Ticked) * w.interval < w.timeout
    ensures Polls(log) == Count(log, Ticked) + (if log == [] || log[|log| - 1].Ticked? then 0 else 1)
  {
    if log != [] {
      var prev, e := log[..|log| - 1], log[|log| - 1];
      TicksAreSpaced(w, prev);
      if e.Ticked? {
        assert (Count(prev, Ticked) + 1) * w.interval == Count(prev, Ticked) * w.interval + w.interval;
      }
    }
  }

  /** The panel is polled at most once per interval of the attempt, and once at first. */
  lemma PollsAreBounded(w: World, log: seq<Event>)
    requires w.Valid() && Traced(w, log)
    ensures Polls(log) <= w.timeout / w.interval + 1
  {
    TicksAreSpaced(w, log);
    var n := Count(log, Ticked);
    if n > w.timeout / w.interval {
      assert n * w.interval >= (w.timeout / w.interval + 1) * w.interval;
    }
  }
}
