/** Start and Stop requests exclude each other, and a Stop request excludes every
    session, for as long as it is in flight. */
module PowerSafety {
  import opened Basics
  import opened Lifecycle
  import opened Control
  import opened Facts
  import opened Sessions
  import opened Invariant
  import opened Reachable
  import E = Effects
  import Ledger

  /** Callback `id` is waiting for the panel's answer to its Stop request. */
  predicate StopInFlight(s: State, id: TimerId) {
    Callback(id) in s.threads && s.threads[Callback(id)].AutoStop? && s.threads[Callback(id)].stop.StopInFlight?
  }

  /** Startup `gen` is waiting for the panel's answer to its Start request. */
  predicate StartInFlight(s: State, gen: nat) {
    Startup(gen) in s.threads && s.threads[Startup(gen)] == Ensuring(EnsurePc.StartInFlight)
  }

  /** Startup `gen` is inside `ensureRunning`. */
  predicate EnsuresRunning(s: State, gen: nat) {
    Startup(gen) in s.threads && PreOpen(s.threads[Startup(gen)]) && !s.threads[Startup(gen)].Teardown?
  }

  /** The gate is open, the store is empty, no session is open and no Start is in flight. */
  ghost predicate Alone(s: State) {
    && s.d.p.ready && s.d.store == map[]
    && (forall sid :: !Ledger.Open(s.d, sid))
    && (forall gen :: !StartInFlight(s, gen))
  }

  lemma StopIsAlone(s: State, id: TimerId)
    requires Inv(s) && StopInFlight(s, id)
    ensures Alone(s)
  {
    assert At(s, Callback(id));
    forall gen ensures !StartInFlight(s, gen) { assert At(s, Startup(gen)); }
    forall sid ensures !Ledger.Open(s.d, sid) { assert SessionAt(s, sid); }
  }

  /** At most one goroutine is inside `ensureRunning`, and the gate is closed while it is. */
  lemma OneStartup(run: seq<State>, acts: seq<Action>, k: nat, gen: nat, other: nat)
    requires IsRun(run, acts) && k < |run| && EnsuresRunning(run[k], gen) && EnsuresRunning(run[k], other)
    ensures gen == other && !run[k].d.p.ready
  {
    RunFull(run, acts, k);
    assert At(run[k], Startup(gen)) && At(run[k], Startup(other));
  }

  /** A Start is sent only by the goroutine inside `ensureRunning`, behind the closed gate. */
  lemma StartBehindClosedGate(run: seq<State>, acts: seq<Action>, k: nat)
    requires IsRun(run, acts) && k < |acts| && OpOf(run[k], acts[k]).StartSent?
    ensures !run[k].d.p.ready && acts[k].Run? && acts[k].t.Startup? && EnsuresRunning(run[k], acts[k].t.gen)
  {
    RunFull(run, acts, k);
    assert StepAt(run, acts, k);
    StartSender(run[k], run[k + 1], acts[k].t, acts[k].x);
  }

  lemma StartSender(s: State, s': State, t: Tid, x: Input)
    requires Inv(s) && ThreadStep(s, s', t, x) && Plan(s.d, t, s.threads[t], x).op.StartSent?
    ensures !s.d.p.ready && t.Startup? && EnsuresRunning(s, t.gen)
  {
    assert At(s, t);
    Performed(s.d, t, s.threads[t], x);
  }

  /** The gate opens and closes only under `admissionMu`, after the adoption of a
      backend that was running from the start. */
  lemma GateMovesUnderAdmission(run: seq<State>, acts: seq<Action>, k: nat)
    requires IsRun(run, acts) && k < |acts| && run[k + 1].d.p.ready != run[k].d.p.ready
    ensures acts[k].Run? && acts[k].t in run[k].threads
    ensures var pc := run[k].threads[acts[k].t]; HoldsAdmission(pc) || pc == Serving(InitStatus)
  {
    RunFull(run, acts, k);
    assert StepAt(run, acts, k);
    match acts[k]
    case Run(t, x) => GateMover(run[k], run[k + 1], t, x);
    case Outside(op) => E.GateFrame(run[k].d, run[k + 1].d, op);
  }

  lemma GateMover(s: State, s': State, t: Tid, x: Input)
    requires Inv(s) && ThreadStep(s, s', t, x) && s'.d.p.ready != s.d.p.ready
    ensures HoldsAdmission(s.threads[t]) || s.threads[t] == Serving(InitStatus)
  {
    var m := Plan(s.d, t, s.threads[t], x);
    assert At(s, t);
    Steps(s, s', t, x);
    ToggleHolds(s.d, s'.d, t, s.threads[t], m.pc, m.op);
  }

  lemma ToggleHolds(d: Data, d': Data, t: Tid, pc: Pc, pc': Pc, op: Op)
    requires Performs(d, pc, pc', op) && Role(t, pc) && Fact(d, t, pc) && Applied(d, d', op) && d'.p.ready != d.p.ready
    ensures HoldsAdmission(pc) || pc == Serving(InitStatus)
  {
    if !E.ChangesGate(op) { E.GateFrame(d, d', op); }
  }

  /** No step that begins and ends with the Stop in flight toggles the gate, sends
      a Start, or creates a session. */
  lemma StopFreezes(s: State, s': State, a: Action, id: TimerId)
    requires Full(s) && Step(s, s', a) && StopInFlight(s, id) && StopInFlight(s', id)
    ensures s'.d.p.ready && s'.d.p.readyGen == s.d.p.readyGen
    ensures s'.d.h.starts == s.d.h.starts && s'.d.sess.Keys == s.d.sess.Keys
  {
    StepFull(s, s', a);
    assert At(s, Callback(id)) && At(s', Callback(id));
    match a
    case Run(t, x) =>
      Steps(s, s', t, x);
      StopFreezesThread(s, s', t, Plan(s.d, t, s.threads[t], x), id);
    case Outside(op) =>
      E.GateFrame(s.d, s'.d, op);
      StartsFrame(s.d, s'.d, op);
  }

  lemma StartsFrame(d: Data, d': Data, op: Op)
    requires Applied(d, d', op) && !op.StartSent? && !op.Insert?
    ensures d'.h.starts == d.h.starts && d'.sess.Keys == d.sess.Keys
  {
  }

  lemma StopFreezesThread(s: State, s': State, t: Tid, m: Move, id: TimerId)
    requires Inv(s) && Stepping(s, s', t, m) && StopInFlight(s, id) && StopInFlight(s', id)
    ensures s'.d.p.readyGen == s.d.p.readyGen
    ensures s'.d.h.starts == s.d.h.starts && s'.d.sess.Keys == s.d.sess.Keys
  {
    assert At(s, Callback(id)) && At(s, t);
    if t != Callback(id) { OwnersExclusive(s, t, Callback(id)); }
    NotDuringStop(s.d, t, s.threads[t], m.pc, m.op);
    E.GateFrame(s.d, s'.d, m.op);
    StartsFrame(s.d, s'.d, m.op);
  }

  /** With the gate open, what `StopFreezes` excludes needs `admissionMu`. */
  lemma NotDuringStop(d: Data, t: Tid, pc: Pc, pc': Pc, op: Op)
    requires Performs(d, pc, pc', op) && Role(t, pc) && Fact(d, t, pc) && d.p.ready
    requires HoldsAdmission(pc) ==> pc.AutoStop? && pc.stop.StopInFlight? && pc'.AutoStop? && pc'.stop.StopInFlight?
    ensures !E.ChangesGate(op) && !op.StartSent? && !op.Insert?
  {
  }

  lemma AloneAt(run: seq<State>, acts: seq<Action>, k: nat, id: TimerId)
    requires IsRun(run, acts) && k < |run| && StopInFlight(run[k], id)
    ensures Alone(run[k])
  {
    RunFull(run, acts, k);
    StopIsAlone(run[k], id);
  }

  lemma FreezesAt(run: seq<State>, acts: seq<Action>, k: nat, id: TimerId)
    requires IsRun(run, acts) && k < |acts| && StopInFlight(run[k], id) && StopInFlight(run[k + 1], id)
    ensures run[k + 1].d.p.readyGen == run[k].d.p.readyGen
    ensures run[k + 1].d.h.starts == run[k].d.h.starts && run[k + 1].d.sess.Keys == run[k].d.sess.Keys
  {
    RunFull(run, acts, k);
    assert StepAt(run, acts, k);
    StopFreezes(run[k], run[k + 1], acts[k], id);
  }

  ghost predicate StopThroughout(run: seq<State>, i: nat, j: nat, id: TimerId)
    requires i <= j < |run|
  {
    forall k | i <= k <= j :: StopInFlight(run[k], id)
  }

  /** From the moment a Stop is sent until it is answered, under any interleaving:
      the gate stays as it is, no Start is in flight or sent, no session is open
      and none is created. */
  lemma {:induction false} StopExcludesStartAndSessions(run: seq<State>, acts: seq<Action>, i: nat, j: nat, id: TimerId)
    requires IsRun(run, acts) && i <= j < |run| && StopThroughout(run, i, j, id)
    ensures Alone(run[j]) && run[j].d.p.readyGen == run[i].d.p.readyGen
    ensures run[j].d.h.starts == run[i].d.h.starts && run[j].d.sess.Keys == run[i].d.sess.Keys
  {
    assert StopInFlight(run[j], id);
    AloneAt(run, acts, j, id);
    if i < j {
      assert StopInFlight(run[j - 1], id);
      StopExcludesStartAndSessions(run, acts, i, j - 1, id);
      FreezesAt(run, acts, j - 1, id);
    }
  }
}
