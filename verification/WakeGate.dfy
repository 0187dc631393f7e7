/** When the backend is started: never without a wake-up, never too soon after a
    permanent failure, and always when datagrams wait for it. */
module WakeGate {
  import opened Basics
  import opened Lifecycle
  import opened Control
  import opened Facts
  import opened Sessions
  import opened Invariant
  import opened Reachable
  import opened Wakeup
  import E = Effects
  import Ledger

  // ---- No lost wake-up -------------------------------------------------------------

  predicate StartupAlive(s: State) {
    s.d.p.startupRunning && InsideAt(s, s.d.p.startupGen)
  }

  /** Behind a closed gate, queued datagrams always have a startup that is under way
      or a goroutine at its call of `startServer`. */
  lemma NoLostWakeup(run: seq<State>, acts: seq<Action>, k: nat)
    requires IsRun(run, acts) && k < |run|
    requires !run[k].d.p.shuttingDown && !run[k].d.p.ready && run[k].d.p.buffer.queues != map[]
    ensures StartupAlive(run[k]) || AboutToStart(run[k])
  {
    RunFull(run, acts, k);
  }

  /** The cooldown is no exception: while it lasts nothing is queued, and no
      session is open but those that the failed startup is closing. */
  lemma CooldownIsEmpty(run: seq<State>, acts: seq<Action>, k: nat, sid: Sid)
    requires IsRun(run, acts) && k < |run| && run[k].d.now < run[k].d.p.blockedUntil
    ensures run[k].d.p.buffer.queues == map[]
    ensures Ledger.Open(run[k].d, sid) ==> TearingDown(OwnerPc(run[k])) && OwnerPc(run[k]).why.Failed?
  {
    RunFull(run, acts, k);
    assert SessionAt(run[k], sid);
  }

  predicate CallsStart(s: State, t: Tid) {
    t in s.threads &&
    ((t.Loop? && s.threads[t].Forwarding? && s.threads[t].fwd.FwdStart?)
     || (t == Startup(s.d.p.startupGen) && s.threads[t] == Opening(Retrigger)))
  }

  /** That call of `startServer` is not in vain: once it is made a startup runs, and
      the queues are as they were. */
  lemma WakeupIsHonoured(run: seq<State>, acts: seq<Action>, k: nat)
    requires IsRun(run, acts) && k < |acts| && acts[k].Run? && CallsStart(run[k], acts[k].t)
    requires !run[k].d.p.shuttingDown && !run[k].d.p.ready && run[k].d.p.buffer.queues != map[]
    ensures StartupAlive(run[k + 1]) && run[k + 1].d.p.buffer.queues == run[k].d.p.buffer.queues
  {
    RunFull(run, acts, k);
    RunFull(run, acts, k + 1);
    assert StepAt(run, acts, k);
    assert At(run[k], acts[k].t);
    Honoured(run[k].d, run[k + 1].d, acts[k].t, run[k].threads[acts[k].t], acts[k].x);
  }

  lemma Honoured(d: Data, d': Data, t: Tid, pc: Pc, x: Input)
    requires Plan(d, t, pc, x).Go? && Applied(d, d', Plan(d, t, pc, x).op)
    requires (pc.Forwarding? && pc.fwd.FwdStart?) || (t.Startup? && pc == Opening(Retrigger))
    requires !d.p.shuttingDown && !d.p.ready && d.p.blockedUntil <= d.now
    ensures d'.p.startupRunning && d'.p.buffer.queues == d.p.buffer.queues
  {
    assert Plan(d, t, pc, x).op == TryStart;
  }

  // ---- The wake gate over whole runs ------------------------------------------------------

  /** A packet accepted by the detector, or a Running answer of the panel. */
  predicate Wakes(op: Op) {
    op.Detected? || op.ObserveRunning? || op.AdoptRunning?
  }

  /** The backend is lost: the monitor closes the gate, a Stop was accepted, or the
      startup failed. */
  predicate Loses(d: Data, op: Op) {
    Fails(d, op) || (op.Teared? && op.why.Lost?) || (op.MarkStopped? && op.accepted)
  }

  ghost predicate NoWake(run: seq<State>, acts: seq<Action>, i: nat, j: nat)
    requires i <= j <= |acts| && |run| == |acts| + 1
  {
    forall k: nat {:trigger OpOf(run[k], acts[k])} | i <= k < j :: !Wakes(OpOf(run[k], acts[k]))
  }

  lemma WakeAt(run: seq<State>, acts: seq<Action>, k: nat)
    requires IsRun(run, acts) && k < |acts|
    ensures var op := OpOf(run[k], acts[k]);
      && (!Wakes(op) && !run[k].d.h.wake ==> !run[k + 1].d.h.wake)
      && (!Wakes(op) && !run[k].d.h.everWake ==> !run[k + 1].d.h.everWake)
      && (Loses(run[k].d, op) ==> !run[k + 1].d.h.wake)
      && (op.Insert? ==> run[k].d.h.wake)
      && (op.StartSent? ==> run[k].d.h.everWake)
  {
    RunFull(run, acts, k);
    assert StepAt(run, acts, k);
    StepOf(run[k], run[k + 1], acts[k]);
  }

  lemma {:induction false} StaysAsleep(run: seq<State>, acts: seq<Action>, i: nat, j: nat)
    requires IsRun(run, acts) && i <= j <= |acts| && NoWake(run, acts, i, j) && !run[i].d.h.wake
    ensures !run[j].d.h.wake
  {
    if i < j {
      StaysAsleep(run, acts, i, j - 1);
      WakeAt(run, acts, j - 1);
    }
  }

  /** Between a backend loss and the next session creation lies a packet accepted by
      the detector or a fresh Running answer. */
  lemma NoSessionWithoutWake(run: seq<State>, acts: seq<Action>, i: nat, j: nat)
    requires IsRun(run, acts) && i < j < |acts|
    requires Loses(run[i].d, OpOf(run[i], acts[i])) && OpOf(run[j], acts[j]).Insert?
    ensures exists k: nat | i < k < j :: Wakes(OpOf(run[k], acts[k]))
  {
    WakeAt(run, acts, i);
    WakeAt(run, acts, j);
    if NoWake(run, acts, i + 1, j) { StaysAsleep(run, acts, i + 1, j); }
  }

  lemma {:induction false} NeverWoken(run: seq<State>, acts: seq<Action>, j: nat)
    requires IsRun(run, acts) && j <= |acts| && NoWake(run, acts, 0, j)
    ensures !run[j].d.h.everWake
  {
    if j > 0 {
      NeverWoken(run, acts, j - 1);
      WakeAt(run, acts, j - 1);
    }
  }

  /** A run without any wake-up creates no session and never sends Start. */
  lemma NeverWokenNeverStarts(run: seq<State>, acts: seq<Action>)
    requires IsRun(run, acts) && NoWake(run, acts, 0, |acts|)
    ensures run[|acts|].d.sess == map[] && run[|acts|].d.h.starts == 0
  {
    NeverWoken(run, acts, |acts|);
    RunFull(run, acts, |acts|);
  }

  // ---- Permanent failures -------------------------------------------------------------------

  lemma {:induction false} FailuresSpread(f: seq<Time>, cooldown: Time, i: nat, j: nat)
    requires forall k | 0 <= k < |f| - 1 :: f[k] + cooldown <= f[k + 1]
    requires i <= j < |f|
    ensures f[i] + (j - i) * cooldown <= f[j]
  {
    if i < j {
      FailuresSpread(f, cooldown, i, j - 1);
      assert (j - i) * cooldown == (j - 1 - i) * cooldown + cooldown;
    }
  }

  /** The last of n permanent failures comes at least n - 1 cooldowns after the first. */
  lemma PermanentFailuresSpread(run: seq<State>, acts: seq<Action>, k: nat, i: nat, j: nat)
    requires IsRun(run, acts) && k < |run| && i <= j < |run[k].d.h.permanentFailures|
    ensures var f := run[k].d.h.permanentFailures; f[i] + (j - i) * run[k].d.o.failureCooldown <= f[j]
  {
    RunFull(run, acts, k);
    FailuresSpread(run[k].d.h.permanentFailures, run[k].d.o.failureCooldown, i, j);
  }

  /** A startup attempt begins no earlier than the cooldown after the last permanent failure. */
  lemma AttemptAfterCooldown(run: seq<State>, acts: seq<Action>, k: nat)
    requires IsRun(run, acts) && k < |acts|
    requires run[k].d.p.startupGen < run[k + 1].d.p.startupGen && run[k + 1].d.p.startupRunning
    requires run[k].d.h.permanentFailures != []
    ensures var f := run[k].d.h.permanentFailures; f[|f| - 1] + run[k].d.o.failureCooldown <= run[k].d.now
  {
    BlockedUntilIs(run, acts, k);
    AppliedAt(run, acts, k);
    AttemptBegins(run[k].d, run[k + 1].d, OpOf(run[k], acts[k]));
  }

  lemma BlockedUntilIs(run: seq<State>, acts: seq<Action>, k: nat)
    requires IsRun(run, acts) && k < |run| && run[k].d.h.permanentFailures != []
    ensures var f := run[k].d.h.permanentFailures; run[k].d.p.blockedUntil == f[|f| - 1] + run[k].d.o.failureCooldown
  {
    RunFull(run, acts, k);
  }

  lemma AppliedAt(run: seq<State>, acts: seq<Action>, k: nat)
    requires IsRun(run, acts) && k < |acts|
    ensures Applied(run[k].d, run[k + 1].d, OpOf(run[k], acts[k]))
  {
    RunFull(run, acts, k);
    assert StepAt(run, acts, k);
    StepOf(run[k], run[k + 1], acts[k]);
  }

  lemma AttemptBegins(d: Data, d': Data, op: Op)
    requires Applied(d, d', op) && d.p.startupGen < d'.p.startupGen && d'.p.startupRunning
    ensures d.p.blockedUntil <= d.now
  {
    E.StartupFrame(d, d', op);
    if op.Teared? || op.Complete? { EndsAttempt(d, d', op); }
  }

  lemma EndsAttempt(d: Data, d': Data, op: Op)
    requires ProxyApplied(d, d'.p, op) && (op.Teared? || op.Complete?)
    ensures d.p.startupGen < d'.p.startupGen ==> !d'.p.startupRunning
  {
  }
}
