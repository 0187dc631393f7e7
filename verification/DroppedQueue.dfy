/** A run into the one moment in which a session's datagrams are neither written nor
    queued: a startup fails permanently, its queues are dropped, and the session is
    about to be closed. */
module DroppedQueue {
  import opened Basics
  import opened Lifecycle
  import opened Control
  import opened Invariant
  import opened Progress
  import opened Buffering
  import Order
  import Reachable
  import P = ProxyState
  import S = SessionState

  const OPTIONS := Options(1, 1, 1, 1, 0, 0, 1, 1, 1, false)
  const KEY: Key := "192.0.2.1:7"
  const PACKET := Datagram(0, [1])
  const UNLOCKED := Locks(None, None, false, None, None)

  /** The last state of a run. */
  function End(run: seq<State>): State
    requires run != []
  {
    run[|run| - 1]
  }

  ghost predicate After(s: State, s': State, t: Tid, m: Move)
    requires t in s.threads && m.Go?
  {
    && Applied(s.d, s'.d, m.op)
    && s'.threads == Spawn(s.d, s.threads, m.op)[t := m.pc]
    && s'.l == LocksAfter(s.l, t, s.threads[t], m.pc)
  }

  /** The run goes on with a step of `t`. */
  lemma Take(run: seq<State>, acts: seq<Action>, t: Tid, x: Input) returns (run': seq<State>, acts': seq<Action>)
    requires IsRun(run, acts) && t in End(run).threads && End(run).threads[t] != Serving(WaitGroup)
    requires var m := Plan(End(run).d, t, End(run).threads[t], x);
      m.Go? && Enabled(End(run).d, m.op) && Free(End(run).l, End(run).threads[t], m.pc)
    ensures IsRun(run', acts')
    ensures After(End(run), End(run'), t, Plan(End(run).d, t, End(run).threads[t], x))
  {
    var s := End(run);
    var m := Plan(s.d, t, s.threads[t], x);
    var d' := Outcome(s.d, m.op);
    var s' := State(d', Spawn(s.d, s.threads, m.op)[t := m.pc], LocksAfter(s.l, t, s.threads[t], m.pc));
    assert ThreadStep(s, s', t, x);
    run', acts' := run + [s'], acts + [Run(t, x)];
    forall k: nat {:trigger StepAt(run', acts', k)} | k < |acts'| ensures StepAt(run', acts', k) {
      if k < |acts| { assert StepAt(run, acts, k); }
    }
  }

  /** Nothing but the goroutines and the wake-up has changed since the beginning. */
  predicate Idle(d: Data) {
    && d.o == OPTIONS && d.now == 0 && !d.cancelled && d.p == P.INITIAL && d.store == map[] && d.sess == map[]
  }

  lemma Begin() returns (run: seq<State>, acts: seq<Action>)
    ensures IsRun(run, acts) && Idle(End(run).d) && End(run).d.h.arrived == 0
    ensures End(run).threads == map[Loop := Serving(InitStatus)] && End(run).l == UNLOCKED
  {
    var d := Data(OPTIONS, 0, false, P.INITIAL, map[], map[], NO_HISTORY);
    run := [State(d, map[Loop := Serving(InitStatus)], UNLOCKED)];
    acts := [];
  }

  const REFUSAL := SOME_INPUT.(ok := false, permanent := true)

  const ARRIVAL := SOME_INPUT.(key := KEY, payload := [1], wake := true)

  /** The panel does not answer, and the loops begin. */
  lemma Launch() returns (run: seq<State>, acts: seq<Action>)
    ensures IsRun(run, acts) && Idle(End(run).d) && End(run).d.h.arrived == 0
    ensures End(run).threads == map[Loop := Serving(ServePc.Idle), Sweeper := Sweeping(SweepTick)]
    ensures End(run).l == UNLOCKED
  {
    run, acts := Begin();
    run, acts := Take(run, acts, Loop, REFUSAL);
    run, acts := Take(run, acts, Loop, SOME_INPUT);
  }

  /** A packet of a new client arrives. */
  lemma Receive() returns (run: seq<State>, acts: seq<Action>)
    ensures IsRun(run, acts) && Idle(End(run).d) && Loop in End(run).threads
    ensures End(run).threads[Loop] == Admitting(AdmLock, KEY, PACKET) && End(run).l == UNLOCKED
  {
    run, acts := Launch();
    run, acts := Take(run, acts, Loop, ARRIVAL);
  }

  lemma Arrive() returns (run: seq<State>, acts: seq<Action>)
    ensures IsRun(run, acts) && Idle(End(run).d) && Loop in End(run).threads
    ensures End(run).threads[Loop] == Admitting(AdmGet, KEY, PACKET)
    ensures End(run).l == UNLOCKED.(admission := Some(Loop))
  {
    run, acts := Receive();
    run, acts := Take(run, acts, Loop, ARRIVAL);
  }

  lemma Undecided() returns (run: seq<State>, acts: seq<Action>)
    ensures IsRun(run, acts) && Idle(End(run).d) && Loop in End(run).threads
    ensures End(run).threads[Loop] == Admitting(Decide, KEY, PACKET)
    ensures End(run).l == UNLOCKED.(admission := Some(Loop))
  {
    run, acts := Arrive();
    run, acts := Take(run, acts, Loop, ARRIVAL);
  }

  /** It is accepted and its session may be created. */
  lemma Accept() returns (run: seq<State>, acts: seq<Action>)
    ensures IsRun(run, acts) && Idle(End(run).d) && Loop in End(run).threads
    ensures End(run).threads[Loop] == Admitting(Create(false), KEY, PACKET)
    ensures End(run).l == UNLOCKED.(admission := Some(Loop))
  {
    run, acts := Undecided();
    run, acts := Take(run, acts, Loop, ARRIVAL);
  }

  /** One open session, whose only datagram is queued behind the closed gate. */
  predicate Queued(d: Data) {
    && d.o == OPTIONS && d.now == 0 && !d.cancelled && d.store == map[KEY := 0]
    && d.sess == map[0 := S.State(KEY, false, false, 0, [PACKET], [])]
    && d.p.buffer == P.Buffer(map[0 := P.Queue([PACKET], 1, false)], 1)
    && !d.p.ready && !d.p.shuttingDown && d.p.blockedUntil == 0
  }

  /** The session exists and nothing else has changed but the stop generation. */
  predicate Created(d: Data) {
    && d.o == OPTIONS && d.now == 0 && !d.cancelled && d.store == map[KEY := 0] && d.sess == map[0 := S.New(KEY, 0)]
    && !d.p.ready && !d.p.shuttingDown && d.p.blockedUntil == 0 && d.p.buffer == P.EMPTY_BUFFER
    && d.p.startupGen == 0 && !d.p.startupRunning
  }

  lemma Insert() returns (run: seq<State>, acts: seq<Action>)
    ensures IsRun(run, acts) && Created(End(run).d) && Loop in End(run).threads
    ensures End(run).threads[Loop] == Admitting(CancelStop(0, false), KEY, PACKET)
    ensures End(run).l == UNLOCKED.(admission := Some(Loop))
  {
    run, acts := Accept();
    run, acts := Take(run, acts, Loop, ARRIVAL);
  }

  lemma Watch() returns (run: seq<State>, acts: seq<Action>)
    ensures IsRun(run, acts) && Created(End(run).d) && Loop in End(run).threads
    ensures End(run).threads[Loop] == Forwarding(FwdLock, KEY, 0, PACKET, Final(false))
    ensures End(run).l == UNLOCKED.(admission := Some(Loop))
  {
    run, acts := Insert();
    run, acts := Take(run, acts, Loop, ARRIVAL);
  }

  lemma Admit() returns (run: seq<State>, acts: seq<Action>)
    ensures IsRun(run, acts) && Created(End(run).d) && Loop in End(run).threads
    ensures End(run).threads[Loop] == Forwarding(FwdCheck, KEY, 0, PACKET, Final(false))
    ensures End(run).l == UNLOCKED.(admission := Some(Loop), reader := true)
  {
    run, acts := Watch();
    run, acts := Take(run, acts, Loop, ARRIVAL);
  }

  lemma Enqueue() returns (run: seq<State>, acts: seq<Action>)
    ensures IsRun(run, acts) && Queued(End(run).d) && End(run).d.p.startupGen == 0 && !End(run).d.p.startupRunning
    ensures Loop in End(run).threads && End(run).threads[Loop] == Forwarding(FwdStart, KEY, 0, PACKET, Final(false))
    ensures End(run).l == UNLOCKED.(admission := Some(Loop), reader := true)
  {
    run, acts := Admit();
    run, acts := Take(run, acts, Loop, ARRIVAL);
    assert [] + [PACKET] == [PACKET];
  }

  /** A startup goroutine has been started. */
  predicate UnderWay(s: State) {
    && Queued(s.d) && s.d.p.startupGen == 1 && s.d.p.startupRunning
    && Startup(1) in s.threads && s.threads[Startup(1)] == Ensuring(Poll(false)) && Loop in s.threads
  }

  lemma Start() returns (run: seq<State>, acts: seq<Action>)
    ensures IsRun(run, acts) && UnderWay(End(run))
    ensures End(run).threads[Loop] == Forwarding(FwdDone(true), KEY, 0, PACKET, Final(false))
    ensures End(run).l == UNLOCKED.(admission := Some(Loop), reader := true)
  {
    run, acts := Enqueue();
    run, acts := Take(run, acts, Loop, ARRIVAL);
  }

  lemma Returning() returns (run: seq<State>, acts: seq<Action>)
    ensures IsRun(run, acts) && UnderWay(End(run))
    ensures End(run).threads[Loop] == Admitting(AdmStart, KEY, PACKET)
    ensures End(run).l == UNLOCKED.(admission := Some(Loop))
  {
    run, acts := Start();
    run, acts := Take(run, acts, Loop, ARRIVAL);
  }

  lemma Forwarded() returns (run: seq<State>, acts: seq<Action>)
    ensures IsRun(run, acts) && UnderWay(End(run))
    ensures End(run).threads[Loop] == Admitting(AdmLeave, KEY, PACKET)
    ensures End(run).l == UNLOCKED.(admission := Some(Loop))
  {
    run, acts := Returning();
    run, acts := Take(run, acts, Loop, ARRIVAL);
  }

  lemma Started() returns (run: seq<State>, acts: seq<Action>)
    ensures IsRun(run, acts) && UnderWay(End(run)) && End(run).l == UNLOCKED
  {
    run, acts := Forwarded();
    run, acts := Take(run, acts, Loop, ARRIVAL);
  }

  /** The panel refuses for good. */
  lemma Refused() returns (run: seq<State>, acts: seq<Action>)
    ensures IsRun(run, acts) && Queued(End(run).d) && End(run).d.p.startupGen == 1
    ensures Startup(1) in End(run).threads && End(run).threads[Startup(1)] == Teardown(Failed(1, true), TdAdmission)
    ensures End(run).l == UNLOCKED
  {
    run, acts := Started();
    run, acts := Take(run, acts, Startup(1), REFUSAL);
    run, acts := Take(run, acts, Startup(1), REFUSAL);
  }

  lemma Failing() returns (run: seq<State>, acts: seq<Action>)
    ensures IsRun(run, acts) && Queued(End(run).d) && End(run).d.p.startupGen == 1
    ensures Startup(1) in End(run).threads && End(run).threads[Startup(1)] == Teardown(Failed(1, true), TdMu)
    ensures End(run).l == UNLOCKED.(admission := Some(Startup(1)), writer := Some(Startup(1)))
  {
    run, acts := Refused();
    run, acts := Take(run, acts, Startup(1), REFUSAL);
    run, acts := Take(run, acts, Startup(1), REFUSAL);
  }

  /** The section of a failed startup empties the queues and leaves the session open. */
  lemma QueuesDropped(d: Data, d': Data)
    requires Queued(d) && d.p.startupGen == 1 && Applied(d, d', Teared(Failed(1, true)))
    ensures d'.p.buffer.queues == map[] && d'.sess == d.sess
  {
  }

  lemma TearingPlan(d: Data, x: Input)
    requires Queued(d)
    ensures Plan(d, Startup(1), Teardown(Failed(1, true), TdMu), x) ==
      Go(Teardown(Failed(1, true), TdTake), Teared(Failed(1, true)))
  {
  }

  lemma Dropped() returns (run: seq<State>, acts: seq<Action>)
    ensures IsRun(run, acts) && End(run).d.p.buffer.queues == map[]
    ensures End(run).d.sess == map[0 := S.State(KEY, false, false, 0, [PACKET], [])]
    ensures Startup(1) in End(run).threads && End(run).threads[Startup(1)] == Teardown(Failed(1, true), TdTake)
    ensures End(run).l.admission == Some(Startup(1))
  {
    run, acts := Failing();
    var before := End(run);
    TearingPlan(before.d, REFUSAL);
    run, acts := Take(run, acts, Startup(1), REFUSAL);
    QueuesDropped(before.d, End(run).d);
  }

  /** In that moment the session is open and its datagram is accepted, but neither
      written nor queued. */
  lemma DatagramsCanBeDropped() returns (run: seq<State>, acts: seq<Action>)
    ensures IsRun(run, acts) && Loop in End(run).threads && 0 in End(run).d.sess
    ensures var y := End(run).d.sess[0];
      !y.closed && y.accepted == [PACKET] && y.written + Waiting(End(run), 0) == []
    ensures Order.Dropping(OwnerPc(End(run)))
  {
    run, acts := Dropped();
    LoopStays(run, acts);
  }

  lemma LoopStays(run: seq<State>, acts: seq<Action>)
    requires IsRun(run, acts)
    ensures Loop in End(run).threads
  {
    Reachable.RunFull(run, acts, |acts|);
    assert At(End(run), Loop);
  }
}
