/** `forwardOrQueue` fails only for a session that is closed, so that the packet
    loop never replaces a live one. */
module Replacement {
  import opened Basics
  import opened Lifecycle
  import opened Control
  import opened Sessions
  import opened Invariant

  /** The session that the packet loop gives up. */
  function GivenUp(pc: Pc): Option<Sid> {
    match pc
    case Forwarding(at, _, sid, _, _) => if at.FwdDone? && !at.ok then Some(sid) else None
    case Admitting(at, _, _) => if at.ReplRemove? || at.ReplClose? then Some(at.sid) else None
    case _ => None
  }

  predicate GivenUpOk(d: Data, loop: Pc) {
    GivenUp(loop).Some? ==> Closed(d, GivenUp(loop).value)
  }

  predicate ReplacementInv(s: State) {
    Loop in s.threads ==> GivenUpOk(s.d, s.threads[Loop])
  }

  /** A session is given up where it is found closed, or is closed by that very step. */
  predicate GivesUp(d: Data, pc: Pc, pc': Pc, op: Op) {
    GivenUp(pc').Some? ==>
      var sid := GivenUp(pc').value;
      GivenUp(pc) == Some(sid) || Closed(d, sid) || op == Close(sid)
  }

  lemma GivesUpSteps(d: Data, pc: Pc, x: Input)
    requires Role(Loop, pc) && Plan(d, Loop, pc, x).Go?
    ensures GivesUp(d, pc, Plan(d, Loop, pc, x).pc, Plan(d, Loop, pc, x).op)
  {
  }

  lemma GivenUpKept(d: Data, d': Data, pc: Pc, pc': Pc, op: Op)
    requires GivenUpOk(d, pc) && GivesUp(d, pc, pc', op) && Persist(d, d') && SessionsApplied(d, d'.sess, op)
    ensures GivenUpOk(d', pc')
  {
  }

  lemma ReplacementStep(s: State, s': State, t: Tid, x: Input)
    requires Inv(s) && ReplacementInv(s) && ThreadStep(s, s', t, x)
    ensures ReplacementInv(s')
  {
    Steps(s, s', t, x);
    ReplacementMoved(s, s', t, Plan(s.d, t, s.threads[t], x), x);
  }

  lemma ReplacementMoved(s: State, s': State, t: Tid, m: Move, x: Input)
    requires ReplacementInv(s) && Stepping(s, s', t, m) && m == Plan(s.d, t, s.threads[t], x)
    ensures ReplacementInv(s')
  {
    Persists(s.d, s'.d, s.threads[t], m.pc, m.op);
    if t == Loop {
      GivesUpSteps(s.d, s.threads[t], x);
      GivenUpKept(s.d, s'.d, s.threads[t], m.pc, m.op);
    } else {
      OtherPc(s, s', t, m, Loop);
    }
  }

  lemma ReplacementOutside(s: State, s': State, op: Op)
    requires Inv(s) && ReplacementInv(s) && OutsideStep(s, s', op)
    ensures ReplacementInv(s')
  {
    assert At(s, Loop);
    Persists(s.d, s'.d, Exited, Exited, op);
    if op.Fire? { assert At(s, Callback(op.id)); }
  }
}
