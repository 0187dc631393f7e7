/** The health monitor closes the gate only on three consecutive confirmed
    failures of the ready interval it closes. */
module Health {
  import opened Basics
  import opened Lifecycle
  import opened Control
  import opened Facts
  import opened Invariant
  import E = Effects

  /** The last `n` iterations of the monitor all confirmed a failure of `gen`. */
  predicate ConfirmedRun(seen: seq<Observation>, gen: nat, n: nat) {
    n <= |seen| && forall i | |seen| - n <= i < |seen| :: seen[i] == Probed(gen, Confirmed)
  }

  predicate FailuresOk(h: History, f: Failures) {
    f.count < HEALTH_FAILURE_THRESHOLD && ConfirmedRun(h.observations, f.gen, f.count)
  }

  /** What the monitor's own counter says of its history. */
  predicate MonitorOk(d: Data, pc: Pc) {
    match pc
    case Monitoring(at) => FailuresOk(d.h, at.failures) && (!at.MonTick? ==> at.gen <= d.p.readyGen && at.gen % 2 == 1)
    case Teardown(why, at) =>
      why.Lost? && (at.TdAdmission? || at.TdForwarding? || at.TdMu?) ==>
        ConfirmedRun(d.h.observations, why.readyGen, HEALTH_FAILURE_THRESHOLD)
    case _ => true
  }

  lemma MonitorOwn(d: Data, d': Data, pc: Pc, x: Input)
    requires Role(Monitor, pc) && MonitorOk(d, pc) && GateOk(d.p) && Plan(d, Monitor, pc, x).Go?
    requires Applied(d, d', Plan(d, Monitor, pc, x).op)
    ensures MonitorOk(d', Plan(d, Monitor, pc, x).pc)
  {
    var op := Plan(d, Monitor, pc, x).op;
    if pc.Teardown? { MonitorTears(d, pc, x); } else { MonitorObserves(d, d', pc, x); }
  }

  lemma MonitorTears(d: Data, pc: Pc, x: Input)
    requires pc.Teardown? && Role(Monitor, pc) && MonitorOk(d, pc) && Plan(d, Monitor, pc, x).Go?
    ensures var pc' := Plan(d, Monitor, pc, x).pc;
      pc' == Monitoring(MonTick(NO_FAILURES)) || (pc'.Teardown? && pc'.why == pc.why && !pc'.td.TdAdmission?)
  {
  }

  lemma MonitorObserves(d: Data, d': Data, pc: Pc, x: Input)
    requires pc.Monitoring? && MonitorOk(d, pc) && GateOk(d.p) && Plan(d, Monitor, pc, x).Go?
    requires Applied(d, d', Plan(d, Monitor, pc, x).op)
    ensures MonitorOk(d', Plan(d, Monitor, pc, x).pc)
  {
  }

  /** The readiness generation counts the toggles of the gate. */
  lemma Toggles(d: Data, d': Data, op: Op)
    requires OpGuard(d, op) && Applied(d, d', op)
    ensures d'.p.readyGen == d.p.readyGen + (if d'.p.ready == d.p.ready then 0 else 1)
  {
    if !E.ChangesGate(op) { E.GateFrame(d, d', op); }
  }

  lemma ObservationFrame(d: Data, d': Data, op: Op)
    requires Applied(d, d', op) && !op.Observe?
    ensures d'.h.observations == d.h.observations
  {
  }

  ghost predicate HealthInv(s: State) {
    Monitor in s.threads ==> MonitorOk(s.d, s.threads[Monitor])
  }

  lemma OnlyMonitorObserves(d: Data, t: Tid, pc: Pc, x: Input)
    requires Role(t, pc) && t != Monitor && Plan(d, t, pc, x).Go?
    ensures !Plan(d, t, pc, x).op.Observe?
  {
  }

  lemma HealthStep(s: State, s': State, t: Tid, x: Input)
    requires Inv(s) && HealthInv(s) && ThreadStep(s, s', t, x)
    ensures HealthInv(s')
  {
    var pc := s.threads[t];
    var m := Plan(s.d, t, pc, x);
    assert At(s, t);
    Steps(s, s', t, x);
    if t == Monitor { MonitorOwn(s.d, s'.d, pc, x); }
    else if Monitor in s'.threads {
      OtherPc(s, s', t, m, Monitor);
      OnlyMonitorObserves(s.d, t, pc, x);
      ObservationFrame(s.d, s'.d, m.op);
      Guarded(s.d, t, pc, x);
      Toggles(s.d, s'.d, m.op);
    }
  }

  lemma HealthOutside(s: State, s': State, op: Op)
    requires Inv(s) && HealthInv(s) && OutsideStep(s, s', op)
    ensures HealthInv(s')
  {
    ObservationFrame(s.d, s'.d, op);
    Toggles(s.d, s'.d, op);
  }
}
