/** The monitor closes the gate on three consecutive confirmed failures, all of
    the very ready interval it closes. */
module GateClosing {
  import opened Basics
  import opened Lifecycle
  import opened Control
  import opened Facts
  import opened Invariant
  import opened Reachable
  import opened Health

  /** A step toggles the gate exactly when it changes the readiness generation,
      which never decreases; its parity says whether the gate is open. */
  lemma GenerationAt(run: seq<State>, acts: seq<Action>, k: nat)
    requires IsRun(run, acts) && k < |acts|
    ensures run[k + 1].d.p.readyGen == run[k].d.p.readyGen + (if run[k + 1].d.p.ready == run[k].d.p.ready then 0 else 1)
    ensures run[k].d.p.ready <==> run[k].d.p.readyGen % 2 == 1
  {
    RunFull(run, acts, k);
    assert StepAt(run, acts, k);
    StepOf(run[k], run[k + 1], acts[k]);
    Toggles(run[k].d, run[k + 1].d, OpOf(run[k], acts[k]));
  }

  lemma {:induction false} GenerationsGrow(run: seq<State>, acts: seq<Action>, i: nat, j: nat)
    requires IsRun(run, acts) && i <= j < |run|
    ensures run[i].d.p.readyGen <= run[j].d.p.readyGen
  {
    if i < j {
      GenerationsGrow(run, acts, i, j - 1);
      GenerationAt(run, acts, j - 1);
    }
  }

  /** One ready interval: two states with the same odd generation have the gate
      open at every state between them. */
  lemma {:induction false} SameInterval(run: seq<State>, acts: seq<Action>, i: nat, j: nat)
    requires IsRun(run, acts) && i <= j < |run|
    requires run[i].d.p.readyGen == run[j].d.p.readyGen && run[i].d.p.ready
    ensures forall k | i <= k <= j :: run[k].d.p.ready && run[k].d.p.readyGen == run[i].d.p.readyGen
  {
    if i < j {
      GenerationsGrow(run, acts, i, j - 1);
      GenerationsGrow(run, acts, j - 1, j);
      SameInterval(run, acts, i, j - 1);
      GenerationAt(run, acts, j - 1);
    }
  }

  // ---- Where an observation was made -------------------------------------------------------

  /** The action after `run[k]` made the monitor's observation number `n`. */
  predicate ObservedAt(run: seq<State>, k: nat, n: nat)
    requires k < |run| - 1
  {
    |run[k].d.h.observations| == n && |run[k + 1].d.h.observations| == n + 1
  }

  /** ... with the gate open in generation `gen`. */
  predicate ObservedIn(run: seq<State>, k: nat, n: nat, gen: nat)
    requires k < |run| - 1
  {
    ObservedAt(run, k, n) && run[k].d.p.ready && run[k].d.p.readyGen == gen
  }

  /** The monitor records a verdict only while the gate is open in the generation
      it probed. */
  lemma ObservationAt(run: seq<State>, acts: seq<Action>, k: nat)
    requires IsRun(run, acts) && k < |acts|
    ensures var h, h' := run[k].d.h.observations, run[k + 1].d.h.observations;
      && h <= h' && |h'| <= |h| + 1
      && (h != h' && h'[|h|].Probed? ==> run[k].d.p.ready && run[k].d.p.readyGen == h'[|h|].gen)
  {
    RunFull(run, acts, k);
    assert StepAt(run, acts, k);
    match acts[k]
    case Run(t, x) =>
      assert At(run[k], t);
      MonitorRecords(run[k].d, run[k + 1].d, t, run[k].threads[t], x);
    case Outside(op) => ObservationFrame(run[k].d, run[k + 1].d, op);
  }

  lemma MonitorRecords(d: Data, d': Data, t: Tid, pc: Pc, x: Input)
    requires Role(t, pc) && Plan(d, t, pc, x).Go? && Applied(d, d', Plan(d, t, pc, x).op)
    ensures var h, h' := d.h.observations, d'.h.observations;
      && h <= h' && |h'| <= |h| + 1
      && (h != h' && h'[|h|].Probed? ==> d.p.ready && d.p.readyGen == h'[|h|].gen)
  {
    if t != Monitor {
      OnlyMonitorObserves(d, t, pc, x);
      ObservationFrame(d, d', Plan(d, t, pc, x).op);
    }
  }

  lemma NoObservations(run: seq<State>, acts: seq<Action>)
    requires IsRun(run, acts)
    ensures run[0].d.h.observations == []
  {
  }

  /** Every recorded verdict was taken at some earlier moment, with the gate open
      in the generation it names. */
  lemma {:induction false} VerdictsArePlaced(run: seq<State>, acts: seq<Action>, j: nat, n: nat)
    requires IsRun(run, acts) && j < |run| && n < |run[j].d.h.observations|
    requires run[j].d.h.observations[n].Probed?
    ensures exists k: nat | k < j :: ObservedIn(run, k, n, run[j].d.h.observations[n].gen)
  {
    if j == 0 {
      NoObservations(run, acts);
    } else {
      ObservationAt(run, acts, j - 1);
      if n < |run[j - 1].d.h.observations| { VerdictsArePlaced(run, acts, j - 1, n); }
      else { assert ObservedIn(run, j - 1, n, run[j].d.h.observations[n].gen); }
    }
  }

  /** The monitor's closing of the gate in `run[c]`: it closes the generation it
      names, on the last three observations of that generation. */
  lemma ClosingNeedsConfirmation(run: seq<State>, acts: seq<Action>, c: nat)
    requires IsRun(run, acts) && c < |acts|
    requires OpOf(run[c], acts[c]).Teared? && OpOf(run[c], acts[c]).why.Lost?
    ensures var gen := OpOf(run[c], acts[c]).why.readyGen;
      && run[c].d.p.ready && run[c].d.p.readyGen == gen && !run[c + 1].d.p.ready
      && ConfirmedRun(run[c].d.h.observations, gen, HEALTH_FAILURE_THRESHOLD)
  {
    RunFull(run, acts, c);
    assert StepAt(run, acts, c);
    StepOf(run[c], run[c + 1], acts[c]);
    var t, x := acts[c].t, acts[c].x;
    assert At(run[c], t);
    Performed(run[c].d, t, run[c].threads[t], x);
  }

  // ---- Where its probe began ---------------------------------------------------------------

  /** The monitor is at a probe that it made for generation `gen`. */
  predicate Probing(pc: Pc, gen: nat) {
    pc.Monitoring? && (pc.mon.MonProbe? || pc.mon.MonCheck?) && pc.mon.gen == gen
  }

  predicate ProbingAt(s: State, gen: nat) {
    Monitor in s.threads && Probing(s.threads[Monitor], gen)
  }

  /** The action after `run[b]` begins a probe, with the gate open in generation `gen`. */
  predicate BeganAt(run: seq<State>, b: nat, gen: nat)
    requires b < |run| - 1
  {
    && run[b].d.p.ready && run[b].d.p.readyGen == gen
    && !ProbingAt(run[b], gen) && ProbingAt(run[b + 1], gen)
  }

  /** One probe: it began after `run[b]` and was under way up to `run[m]`. */
  predicate OneProbe(run: seq<State>, b: nat, m: nat, gen: nat) {
    && b < m < |run| && BeganAt(run, b, gen)
    && forall j | b < j <= m :: ProbingAt(run[j], gen)
  }

  /** How the monitor's step leads to a probe for `gen`. */
  predicate ProbeStep(d: Data, pc: Pc, pc': Pc, gen: nat) {
    Probing(pc', gen) ==>
      || Probing(pc, gen)
      || (pc.Monitoring? && pc.mon.MonTick? && d.p.ready && d.p.readyGen == gen)
  }

  lemma ProbeSteps(d: Data, pc: Pc, x: Input, gen: nat)
    requires Plan(d, Monitor, pc, x).Go? && Role(Monitor, pc)
    ensures ProbeStep(d, pc, Plan(d, Monitor, pc, x).pc, gen)
  {
  }

  lemma ProbeStepped(s: State, s': State, t: Tid, x: Input, gen: nat)
    requires Inv(s) && ThreadStep(s, s', t, x) && ProbingAt(s', gen)
    ensures ProbingAt(s, gen) || (s.d.p.ready && s.d.p.readyGen == gen)
  {
    assert At(s, t);
    Steps(s, s', t, x);
    if t == Monitor { ProbeSteps(s.d, s.threads[t], x, gen); }
    else { OtherPc(s, s', t, Plan(s.d, t, s.threads[t], x), Monitor); }
  }

  lemma ProbeAt(run: seq<State>, acts: seq<Action>, k: nat, gen: nat)
    requires IsRun(run, acts) && k < |acts| && ProbingAt(run[k + 1], gen)
    ensures ProbingAt(run[k], gen) || BeganAt(run, k, gen)
  {
    RunFull(run, acts, k);
    assert StepAt(run, acts, k);
    match acts[k]
    case Run(t, x) => ProbeStepped(run[k], run[k + 1], t, x, gen);
    case Outside(op) =>
  }

  lemma NoProbeAtFirst(run: seq<State>, acts: seq<Action>, gen: nat)
    requires IsRun(run, acts)
    ensures !ProbingAt(run[0], gen)
  {
  }

  /** Every probe began at a moment when the gate was open in the generation that its
      outcome will be counted for. */
  lemma {:induction false} ProbesBegin(run: seq<State>, acts: seq<Action>, m: nat, gen: nat) returns (b: nat)
    requires IsRun(run, acts) && m < |run| && ProbingAt(run[m], gen)
    ensures OneProbe(run, b, m, gen)
  {
    if m == 0 { NoProbeAtFirst(run, acts, gen); }
    else {
      ProbeAt(run, acts, m - 1, gen);
      if ProbingAt(run[m - 1], gen) { b := ProbesBegin(run, acts, m - 1, gen); } else { b := m - 1; }
    }
  }

  /** A recorded verdict is that of the probe under way. */
  lemma RecordsItsProbe(run: seq<State>, acts: seq<Action>, k: nat)
    requires IsRun(run, acts) && k < |acts|
    ensures var h, h' := run[k].d.h.observations, run[k + 1].d.h.observations;
      h != h' && |h| < |h'| && h'[|h|].Probed? ==> ProbingAt(run[k], h'[|h|].gen)
  {
    RunFull(run, acts, k);
    assert StepAt(run, acts, k);
    match acts[k]
    case Run(t, x) =>
      assert At(run[k], t);
      RecordedProbe(run[k].d, run[k + 1].d, t, run[k].threads[t], x);
    case Outside(op) => ObservationFrame(run[k].d, run[k + 1].d, op);
  }

  lemma RecordedProbe(d: Data, d': Data, t: Tid, pc: Pc, x: Input)
    requires Role(t, pc) && Plan(d, t, pc, x).Go? && Applied(d, d', Plan(d, t, pc, x).op)
    ensures var h, h' := d.h.observations, d'.h.observations;
      h != h' && |h| < |h'| && h'[|h|].Probed? ==> t == Monitor && Probing(pc, h'[|h|].gen)
  {
    if t != Monitor {
      OnlyMonitorObserves(d, t, pc, x);
      ObservationFrame(d, d', Plan(d, t, pc, x).op);
    }
  }

  /** Observations once made stay as they are. */
  lemma {:induction false} ObservationsStay(run: seq<State>, acts: seq<Action>, i: nat, j: nat)
    requires IsRun(run, acts) && i <= j < |run|
    ensures run[i].d.h.observations <= run[j].d.h.observations
  {
    if i < j {
      ObservationsStay(run, acts, i, j - 1);
      ObservationAt(run, acts, j - 1);
    }
  }

  /** The gate is closed by the monitor only after three consecutive confirmed failures.
      Each is the verdict of one probe, begun after `run[b]` and recorded after `run[k]`,
      and from before that probe began until the closing the gate stayed open: a gate that
      closes and reopens, even in the middle of a probe, is never closed on old failures. */
  lemma MonitorClosesItsOwnInterval(run: seq<State>, acts: seq<Action>, c: nat, n: nat) returns (b: nat, k: nat)
    requires IsRun(run, acts) && c < |acts|
    requires OpOf(run[c], acts[c]).Teared? && OpOf(run[c], acts[c]).why.Lost?
    requires |run[c].d.h.observations| - HEALTH_FAILURE_THRESHOLD <= n < |run[c].d.h.observations|
    ensures HEALTH_FAILURE_THRESHOLD <= |run[c].d.h.observations|
    ensures run[c].d.h.observations[n] == Probed(run[c].d.p.readyGen, Confirmed)
    ensures k < c && ObservedAt(run, k, n) && OneProbe(run, b, k, run[c].d.p.readyGen)
    ensures forall m | b <= m <= c :: run[m].d.p.ready && run[m].d.p.readyGen == run[c].d.p.readyGen
  {
    ClosingNeedsConfirmation(run, acts, c);
    VerdictsArePlaced(run, acts, c, n);
    k :| k < c && ObservedIn(run, k, n, run[c].d.h.observations[n].gen);
    ObservationsStay(run, acts, k + 1, c);
    ObservationsStay(run, acts, k, k + 1);
    RecordsItsProbe(run, acts, k);
    b := ProbesBegin(run, acts, k, run[c].d.p.readyGen);
    SameInterval(run, acts, b, c);
  }
}
