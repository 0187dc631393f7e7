/** All the invariants together, for every state of every run. */
module Reachable {
  import opened Basics
  import opened Lifecycle
  import opened Control
  import opened Facts
  import opened Invariant
  import Wakeup
  import Budget
  import Order
  import Health
  import Idle
  import StopSafety
  import Ledger
  import Replacement

  /** Once `Serve` has returned every other goroutine has exited. */
  ghost predicate ReturnOk(s: State) {
    Loop in s.threads && s.threads[Loop] == Serving(Returned) ==> AllExited(s)
  }

  ghost predicate Full(s: State) {
    && Inv(s)
    && Wakeup.WakeupOk(s)
    && Budget.BufferOk(s.d.p.buffer, s.d.o)
    && Order.OrderInv(s)
    && Health.HealthInv(s)
    && Idle.IdleInv(s)
    && StopSafety.StopInv(s)
    && Ledger.LedgerInv(s.d)
    && Replacement.ReplacementInv(s)
    && ReturnOk(s)
  }

  /** The operation that action `a` performs in state `s`. */
  function OpOf(s: State, a: Action): Op {
    match a
    case Run(t, x) =>
      if t in s.threads then
        match Plan(s.d, t, s.threads[t], x)
        case Go(_, op) => op
        case Blocked => Nop
      else Nop
    case Outside(op) => op
  }

  lemma InitFull(s: State)
    requires Init(s)
    ensures Full(s)
  {
    InitInv(s);
    StopSafety.StopInit(s);
    Order.OrderInit(s);
  }

  /** `Serve` returns only from the wait for every goroutine. */
  predicate ReturnStep(pc: Pc, pc': Pc) {
    pc != Serving(Returned) && (pc' == Serving(Returned) ==> pc == Serving(WaitGroup))
  }

  lemma ReturnSteps(d: Data, t: Tid, pc: Pc, x: Input)
    requires Plan(d, t, pc, x).Go?
    ensures ReturnStep(pc, Plan(d, t, pc, x).pc)
    ensures !pc.Exited?
    ensures pc == Serving(WaitGroup) ==> Plan(d, t, pc, x).op.Nop?
  {
  }

  lemma ReturnKept(s: State, s': State, t: Tid, x: Input)
    requires Inv(s) && ReturnOk(s) && ThreadStep(s, s', t, x)
    ensures ReturnOk(s')
  {
    assert At(s, t);
    Steps(s, s', t, x);
    ReturnSteps(s.d, t, s.threads[t], x);
  }

  /** After shutdown no timer is left to fire. */
  lemma ReturnOutside(s: State, s': State, op: Op)
    requires Inv(s) && StopSafety.StopInv(s) && ReturnOk(s) && OutsideStep(s, s', op)
    ensures ReturnOk(s')
  {
    assert At(s, Loop);
    if op.Fire? { assert StopSafety.StopAt(s, op.id); }
  }

  lemma ThreadFull(s: State, s': State, t: Tid, x: Input)
    requires Full(s) && ThreadStep(s, s', t, x)
    ensures Full(s')
  {
    ThreadInv(s, s', t, x);
    Wakeup.WakeupStep(s, s', t, x);
    Budget.BudgetKept(s.d, s'.d, Plan(s.d, t, s.threads[t], x).op);
    Order.OrderStep(s, s', t, x);
    Health.HealthStep(s, s', t, x);
    Idle.IdleStep(s, s', t, x);
    StopSafety.StopStep(s, s', t, x);
    Ledger.LedgerStep(s, s', t, x);
    Replacement.ReplacementStep(s, s', t, x);
    ReturnKept(s, s', t, x);
  }

  lemma OutsideFull(s: State, s': State, op: Op)
    requires Full(s) && OutsideStep(s, s', op)
    ensures Full(s')
  {
    OutsideInv(s, s', op);
    Wakeup.WakeupOutside(s, s', op);
    Budget.BudgetKept(s.d, s'.d, op);
    Order.OrderOutside(s, s', op);
    Health.HealthOutside(s, s', op);
    Idle.IdleOutside(s, s', op);
    StopSafety.StopOutside(s, s', op);
    Ledger.LedgerOutside(s, s', op);
    Replacement.ReplacementOutside(s, s', op);
    ReturnOutside(s, s', op);
  }

  lemma StepFull(s: State, s': State, a: Action)
    requires Full(s) && Step(s, s', a)
    ensures Full(s')
  {
    match a
    case Run(t, x) => ThreadFull(s, s', t, x);
    case Outside(op) => OutsideFull(s, s', op);
  }

  /** Every reachable state satisfies every invariant. */
  lemma {:induction false} RunFull(run: seq<State>, acts: seq<Action>, k: nat)
    requires IsRun(run, acts) && k < |run|
    ensures Full(run[k])
  {
    if k == 0 {
      InitFull(run[0]);
    } else {
      RunFull(run, acts, k - 1);
      assert StepAt(run, acts, k - 1);
      StepFull(run[k - 1], run[k], acts[k - 1]);
    }
  }

  /** The step of a run, with what is known of it without its plan. */
  lemma StepOf(s: State, s': State, a: Action)
    requires Full(s) && Step(s, s', a)
    ensures Full(s') && Applied(s.d, s'.d, OpOf(s, a)) && OpGuard(s.d, OpOf(s, a))
  {
    StepFull(s, s', a);
    match a
    case Run(t, x) => assert At(s, t); Guarded(s.d, t, s.threads[t], x);
    case Outside(op) =>
  }
}
