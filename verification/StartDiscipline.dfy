/** Every attempt's Starts, in the runs of the whole proxy: each directly after an
    Offline answer, and the panel seen stopping between two. */
module StartDiscipline {
  import opened Basics
  import opened Lifecycle
  import opened Control
  import opened Invariant
  import opened Reachable

  /** The attempt polls the panel, which answers `state`. */
  predicate Polls(s: State, a: Action, gen: nat, state: PanelState) {
    && a.Run? && a.t == Startup(gen) && Startup(gen) in s.threads
    && s.threads[Startup(gen)].Ensuring? && s.threads[Startup(gen)].ensure.Poll?
    && a.x.ok && a.x.panel == state
  }

  /** The attempt sends Start. */
  predicate Starts(s: State, a: Action, gen: nat) {
    a.Run? && a.t == Startup(gen) && OpOf(s, a).StartSent?
  }

  predicate PolledBy(run: seq<State>, acts: seq<Action>, k: nat, gen: nat, state: PanelState)
    requires k < |acts| && |run| == |acts| + 1
  {
    Polls(run[k], acts[k], gen, state)
  }

  predicate StartedBy(run: seq<State>, acts: seq<Action>, k: nat, gen: nat)
    requires k < |acts| && |run| == |acts| + 1
  {
    Starts(run[k], acts[k], gen)
  }

  /** The attempt has seen Offline and is about to send Start. */
  predicate AwaitsStart(pc: Pc) {
    (pc.Marking? && pc.after.ToStart?) || pc == Ensuring(SendStart)
  }

  /** The attempt will send no Start before it has seen Stopping. */
  predicate NotDue(pc: Pc) {
    && !AwaitsStart(pc)
    && pc != Ensuring(Poll(false)) && pc != Ensuring(TickWait(false))
    && !(pc.Marking? && pc.after == ToTick(false))
  }

  predicate AwaitsAt(s: State, gen: nat) {
    Startup(gen) in s.threads && AwaitsStart(s.threads[Startup(gen)])
  }

  predicate NotDueAt(s: State, gen: nat) {
    Startup(gen) in s.threads && NotDue(s.threads[Startup(gen)])
  }

  /** How a step of the attempt leads to a Start, and past one. */
  predicate StartMove(pc: Pc, pc': Pc, x: Input, op: Op) {
    var polls := pc.Ensuring? && pc.ensure.Poll? && x.ok;
    && (AwaitsStart(pc') ==> AwaitsStart(pc) || (polls && x.panel.Offline?))
    && (NotDue(pc) ==> NotDue(pc') || (polls && x.panel.Stopping?))
    && (op.StartSent? ==> AwaitsStart(pc) && NotDue(pc'))
  }

  lemma StartMoves(d: Data, gen: nat, pc: Pc, x: Input)
    requires Role(Startup(gen), pc) && Plan(d, Startup(gen), pc, x).Go?
    ensures StartMove(pc, Plan(d, Startup(gen), pc, x).pc, x, Plan(d, Startup(gen), pc, x).op)
  {
  }

  /** What a step of the machine does to the attempt. */
  predicate AttemptMove(s: State, s': State, a: Action, gen: nat) {
    && (AwaitsAt(s', gen) ==> AwaitsAt(s, gen) || Polls(s, a, gen, Offline))
    && (NotDueAt(s, gen) ==> NotDueAt(s', gen) || Polls(s, a, gen, Stopping))
    && (Starts(s, a, gen) ==> AwaitsAt(s, gen) && NotDueAt(s', gen))
  }

  lemma OwnStep(s: State, s': State, t: Tid, x: Input, gen: nat)
    requires Inv(s) && ThreadStep(s, s', t, x) && t == Startup(gen)
    ensures AttemptMove(s, s', Run(t, x), gen)
  {
    assert At(s, t);
    Steps(s, s', t, x);
    StartMoves(s.d, gen, s.threads[t], x);
  }

  lemma OtherStep(s: State, s': State, t: Tid, x: Input, gen: nat)
    requires Inv(s) && ThreadStep(s, s', t, x) && t != Startup(gen)
    ensures AttemptMove(s, s', Run(t, x), gen)
  {
    assert At(s, t);
    Steps(s, s', t, x);
    if Startup(gen) in s'.threads { OtherPc(s, s', t, Plan(s.d, t, s.threads[t], x), Startup(gen)); }
  }

  lemma OutsideAttempt(s: State, s': State, op: Op, gen: nat)
    requires OutsideStep(s, s', op)
    ensures AttemptMove(s, s', Outside(op), gen)
  {
  }

  lemma AttemptAt(run: seq<State>, acts: seq<Action>, k: nat, gen: nat)
    requires IsRun(run, acts) && k < |acts|
    ensures AttemptMove(run[k], run[k + 1], acts[k], gen)
  {
    RunFull(run, acts, k);
    assert StepAt(run, acts, k);
    match acts[k]
    case Run(t, x) =>
      if t == Startup(gen) { OwnStep(run[k], run[k + 1], t, x, gen); }
      else { OtherStep(run[k], run[k + 1], t, x, gen); }
    case Outside(op) => OutsideAttempt(run[k], run[k + 1], op, gen);
  }

  lemma NoneAwaitsAtFirst(run: seq<State>, acts: seq<Action>, gen: nat)
    requires IsRun(run, acts)
    ensures !AwaitsAt(run[0], gen)
  {
  }

  /** An attempt that is about to send Start has been since its last answer, Offline. */
  lemma {:induction false} AwaitsSinceOffline(run: seq<State>, acts: seq<Action>, n: nat, gen: nat) returns (j: nat)
    requires IsRun(run, acts) && n < |run| && AwaitsAt(run[n], gen)
    ensures j < n && PolledBy(run, acts, j, gen, Offline) && forall m | j < m <= n :: AwaitsAt(run[m], gen)
  {
    if n == 0 { NoneAwaitsAtFirst(run, acts, gen); }
    else {
      AttemptAt(run, acts, n - 1, gen);
      if AwaitsAt(run[n - 1], gen) { j := AwaitsSinceOffline(run, acts, n - 1, gen); } else { j := n - 1; }
    }
  }

  /** Every Start comes directly after an Offline answer: from that answer on the attempt
      has done nothing but mark the backend. */
  lemma StartAfterOffline(run: seq<State>, acts: seq<Action>, k: nat, gen: nat) returns (j: nat)
    requires IsRun(run, acts) && k < |acts| && StartedBy(run, acts, k, gen)
    ensures j < k && PolledBy(run, acts, j, gen, Offline) && forall m | j < m <= k :: AwaitsAt(run[m], gen)
  {
    AttemptAt(run, acts, k, gen);
    j := AwaitsSinceOffline(run, acts, k, gen);
  }

  ghost predicate NeverStopping(run: seq<State>, acts: seq<Action>, i: nat, n: nat, gen: nat)
    requires i <= n <= |acts| && |run| == |acts| + 1
  {
    forall j: nat {:trigger PolledBy(run, acts, j, gen, Stopping)} | i <= j < n ::
      !PolledBy(run, acts, j, gen, Stopping)
  }

  lemma {:induction false} StaysNotDue(run: seq<State>, acts: seq<Action>, i: nat, n: nat, gen: nat)
    requires IsRun(run, acts) && i <= n <= |acts| && NotDueAt(run[i], gen) && NeverStopping(run, acts, i, n, gen)
    ensures NotDueAt(run[n], gen)
  {
    if i < n {
      StaysNotDue(run, acts, i, n - 1, gen);
      AttemptAt(run, acts, n - 1, gen);
      assert !PolledBy(run, acts, n - 1, gen, Stopping);
    }
  }

  /** Between two Starts of one attempt the panel has answered Stopping. */
  lemma StoppingBetween(run: seq<State>, acts: seq<Action>, i: nat, k: nat, gen: nat)
    requires IsRun(run, acts) && i < k < |acts| && StartedBy(run, acts, i, gen) && StartedBy(run, acts, k, gen)
    ensures exists j: nat | i < j < k :: PolledBy(run, acts, j, gen, Stopping)
  {
    AttemptAt(run, acts, i, gen);
    AttemptAt(run, acts, k, gen);
    if NeverStopping(run, acts, i + 1, k, gen) { StaysNotDue(run, acts, i + 1, k, gen); }
  }
}
