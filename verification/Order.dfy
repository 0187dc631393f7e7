/** Order-preserving buffering: what was written upstream, followed by what is
    still queued, is what was accepted, in arrival order. */
module Order {
  import opened Basics
  import opened Lifecycle
  import opened Control
  import opened Facts
  import opened Sessions
  import opened Invariant
  import E = Effects
  import P = ProxyState

  // ---- The datagram in the packet loop's hands -----------------------------------

  /** The datagram that the packet loop has received and not yet disposed of. */
  function PendingDatagram(pc: Pc): Option<Datagram> {
    match pc
    case Forwarding(at, _, _, g, _) =>
      if at.FwdStart? || (at.FwdDone? && at.ok) then None else Some(g)
    case Admitting(at, _, g) => if at.AdmStart? || at.AdmLeave? then None else Some(g)
    case _ => None
  }

  predicate PendingOk(d: Data, pc: Pc) {
    PendingDatagram(pc).Some? ==> PendingDatagram(pc).value.id + 1 == d.h.arrived
  }

  /** Every datagram accepted so far arrived before this number. */
  function AcceptedBound(d: Data, loop: Pc): nat {
    if PendingDatagram(loop).Some? then PendingDatagram(loop).value.id else d.h.arrived
  }

  predicate PendingStep(d: Data, pc: Pc, pc': Pc, op: Op) {
    && (PendingDatagram(pc').Some? ==>
          PendingDatagram(pc') == PendingDatagram(pc) || (op.Arrived? && PendingDatagram(pc').value.id == d.h.arrived))
    && (op.Enqueue? || op.Forward? ==> PendingDatagram(pc) == Some(op.d) && PendingDatagram(pc').None?)
    && (op.Arrived? ==> PendingDatagram(pc).None?)
  }

  lemma PendingSteps(d: Data, t: Tid, pc: Pc, x: Input)
    requires Role(t, pc) && Plan(d, t, pc, x).Go?
    ensures PendingStep(d, pc, Plan(d, t, pc, x).pc, Plan(d, t, pc, x).op)
  {
  }

  // ---- One session -------------------------------------------------------------------

  predicate Ascending(packets: seq<Datagram>, bound: nat) {
    && (forall i, j | 0 <= i < j < |packets| :: packets[i].id < packets[j].id)
    && (forall i | 0 <= i < |packets| :: packets[i].id < bound)
  }

  function FlushPosition(owner: Pc, sid: Sid): nat {
    if owner.Opening? && owner.open.Flush? then Position(owner.open.pos, sid) else 0
  }

  /** The part of the session's queue that the opening flush has not reached. */
  function Remaining(v: View, sid: Sid): seq<Datagram> {
    var packets := P.QueueOf(v.d.p.buffer, sid).packets;
    if FlushPosition(v.owner, sid) <= |packets| then packets[FlushPosition(v.owner, sid)..] else []
  }

  /** A failed startup has dropped the queues and is closing the sessions. */
  predicate Dropping(pc: Pc) {
    TearingDown(pc) && pc.why.Failed?
  }

  /** The datagrams accepted for an open session are those written, then those queued. */
  predicate Accounted(v: View, sid: Sid) {
    sid in v.d.sess && !v.d.sess[sid].closed && !Dropping(v.owner) ==>
      v.d.sess[sid].accepted == v.d.sess[sid].written + Remaining(v, sid)
  }

  predicate OrderOk(v: View, sid: Sid) {
    sid in v.d.sess ==>
      var y := v.d.sess[sid];
      && y.written <= y.accepted
      && Ascending(y.accepted, AcceptedBound(v.d, v.loop))
      && (v.loop.Forwarding? && v.loop.fwd.FwdWrite? && v.loop.sid == sid ==> y.written == y.accepted)
      && Accounted(v, sid)
  }

  predicate FlushOk(v: View, sid: Sid) {
    sid in v.d.p.buffer.queues ==> FlushPosition(v.owner, sid) <= |v.d.p.buffer.queues[sid].packets|
  }

  lemma BoundKept(v: View, v': View, t: Tid, pc: Pc, pc': Pc, op: Op, sid: Sid)
    requires ViewStep(v, v', t, pc, pc', op, sid) && OrderOk(v, sid) && PendingOk(v.d, v.loop)
    requires t == Loop ==> PendingStep(v.d, pc, pc', op)
    requires (op.Enqueue? || op.Forward? || op.Arrived?) ==> t == Loop
    requires E.SessionEffect(v.d, v'.d, op, sid) && (op.Insert? ==> op.sid !in v.d.sess)
    requires v'.d.h.arrived == v.d.h.arrived + (if op.Arrived? then 1 else 0)
    ensures sid in v'.d.sess ==> Ascending(v'.d.sess[sid].accepted, AcceptedBound(v'.d, v'.loop))
    ensures PendingOk(v'.d, v'.loop)
  {
    if sid in v.d.sess { AscendingMore(v.d.sess[sid].accepted, AcceptedBound(v.d, v.loop), op); }
  }

  lemma AscendingMore(accepted: seq<Datagram>, bound: nat, op: Op)
    requires Ascending(accepted, bound)
    ensures op.Enqueue? || op.Forward? ==> op.d.id == bound ==> Ascending(accepted + [op.d], bound + 1)
    ensures Ascending(accepted, bound + 1)
  {
  }

  lemma ArrivalFrame(d: Data, d': Data, op: Op)
    requires Applied(d, d', op)
    ensures d'.h.arrived == d.h.arrived + (if op.Arrived? then 1 else 0)
  {
  }

  // ---- The flush ---------------------------------------------------------------------

  predicate IsFlush(pc: Pc) {
    pc.Opening? && pc.open.Flush?
  }

  /** How a step moves the flush position of `sid`. */
  predicate FlushStep(d: Data, pc: Pc, pc': Pc, op: Op, sid: Sid) {
    || FlushPosition(pc', sid) == FlushPosition(pc, sid)
    || (op.FlushWrite? && op.sid == sid && IsFlush(pc) && FlushPosition(pc', sid) == FlushPosition(pc, sid) + 1)
    || (IsFlush(pc) && IsFlush(pc') && sid in d.p.buffer.queues
        && FlushPosition(pc', sid) == |d.p.buffer.queues[sid].packets|
        && (Closed(d, sid) || op == Close(sid)))
    || op.OpenGate?
  }

  lemma FlushSteps(d: Data, t: Tid, pc: Pc, x: Input, sid: Sid)
    requires Plan(d, t, pc, x).Go?
    ensures FlushStep(d, pc, Plan(d, t, pc, x).pc, Plan(d, t, pc, x).op, sid)
    ensures Plan(d, t, pc, x).op.FlushWrite? && Plan(d, t, pc, x).op.sid != sid ==>
      FlushPosition(Plan(d, t, pc, x).pc, sid) == FlushPosition(pc, sid)
  {
  }

  /** Locks exclude the packet loop's forwarding from the flush, and the sections
      under `mu` from both the flush and its steps. */
  predicate Apart(v: View, t: Tid, pc: Pc) {
    && (HoldsReader(v.loop) ==> !HoldsWriter(v.owner))
    && (t != Loop ==> Exclusive(pc, v.loop))
    && (HoldsMu(v.owner) ==> !NeedsMu(pc))
  }

  /** While a failed startup closes the sessions nothing is queued. */
  predicate DropOk(v: View, sid: Sid) {
    Dropping(v.owner) ==> sid !in v.d.p.buffer.queues
  }

  lemma DropKept(v: View, v': View, t: Tid, pc: Pc, pc': Pc, op: Op, sid: Sid)
    requires DropOk(v, sid) && ViewStep(v, v', t, pc, pc', op, sid) && Apart(v, t, pc)
    requires StaysDropping(pc, pc', op) && Performs(v.d, pc, pc', op) && E.BufferEffect(v.d, v'.d, op)
    requires op.Enqueue? ==> t == Loop
    ensures DropOk(v', sid)
  {
    if op.Enqueue? { SameOwner(v, v', pc, pc', op, sid); }
  }

  /** Only the section that drops the queues begins to close sessions after a failure. */
  predicate StaysDropping(pc: Pc, pc': Pc, op: Op) {
    Dropping(pc') ==> Dropping(pc) || (op.Teared? && op.why.Failed?)
  }

  lemma StaysDroppings(d: Data, t: Tid, pc: Pc, x: Input)
    requires Plan(d, t, pc, x).Go?
    ensures StaysDropping(pc, Plan(d, t, pc, x).pc, Plan(d, t, pc, x).op)
  {
  }

  lemma FlushKept(v: View, v': View, t: Tid, pc: Pc, pc': Pc, op: Op, sid: Sid)
    requires FlushOk(v, sid) && ViewStep(v, v', t, pc, pc', op, sid) && Apart(v, t, pc)
    requires FlushStep(v.d, pc, pc', op, sid) && Performs(v.d, pc, pc', op) && E.BufferEffect(v.d, v'.d, op)
    requires op.Enqueue? ==> t == Loop
    ensures FlushOk(v', sid)
  {
    if op.Enqueue? { SameOwner(v, v', pc, pc', op, sid); }
  }

  /** What is written stays a prefix of what is accepted. */
  lemma LogsKept(v: View, v': View, t: Tid, pc: Pc, pc': Pc, op: Op, sid: Sid)
    requires OrderOk(v, sid) && FlushOk(v, sid) && sid in v.d.sess && ViewStep(v, v', t, pc, pc', op, sid)
    requires op.Forward? && op.sid == sid ==> v.d.sess[sid].written == v.d.sess[sid].accepted
    requires op.Insert? ==> op.sid != sid
    requires Performs(v.d, pc, pc', op) && E.SessionEffect(v.d, v'.d, op, sid)
    ensures sid in v'.d.sess && v'.d.sess[sid].written <= v'.d.sess[sid].accepted
  {
    if op.FlushWrite? && op.sid == sid { NextIsFlushed(v, pc, pc', op, sid); }
  }

  /** The flush writes the first datagram that is accepted and not written. */
  lemma NextIsFlushed(v: View, pc: Pc, pc': Pc, op: Op, sid: Sid)
    requires Accounted(v, sid) && v.owner == pc
    requires op.FlushWrite? && op.sid == sid && Performs(v.d, pc, pc', op)
    ensures v.d.sess[sid].written + [op.d] <= v.d.sess[sid].accepted
  {
  }

  /** At the packet loop's write everything accepted has been written. */
  lemma WritesCaughtUp(v: View, v': View, t: Tid, pc: Pc, pc': Pc, op: Op, sid: Sid)
    requires OrderOk(v, sid) && GateOk(v.d.p) && sid in v.d.sess
    requires ViewStep(v, v', t, pc, pc', op, sid) && Apart(v, t, pc) && Role(t, pc) && (t == Loop ==> Fact(v.d, t, pc))
    requires op.Enqueue? || op.Forward? ==> t == Loop
    requires Performs(v.d, pc, pc', op) && E.SessionEffect(v.d, v'.d, op, sid) && (op.Insert? ==> op.sid != sid)
    requires LeadsToWrite(v.d, pc, pc')
    requires v'.loop.Forwarding? && v'.loop.fwd.FwdWrite? && v'.loop.sid == sid
    ensures sid in v'.d.sess && v'.d.sess[sid].written == v'.d.sess[sid].accepted
  {
    if t != Loop { WriteHeld(v, v', t, pc, pc', op, sid); }
  }

  /** The packet loop stays before its write while another goroutine steps. */
  lemma WriteHeld(v: View, v': View, t: Tid, pc: Pc, pc': Pc, op: Op, sid: Sid)
    requires OrderOk(v, sid) && sid in v.d.sess && t != Loop
    requires ViewStep(v, v', t, pc, pc', op, sid) && Apart(v, t, pc)
    requires !op.Enqueue? && !op.Forward?
    requires Performs(v.d, pc, pc', op) && E.SessionEffect(v.d, v'.d, op, sid) && (op.Insert? ==> op.sid != sid)
    requires v'.loop.Forwarding? && v'.loop.fwd.FwdWrite? && v'.loop.sid == sid
    ensures sid in v'.d.sess && v'.d.sess[sid].written == v'.d.sess[sid].accepted
  {
  }

  lemma AccountedQuiet(v: View, v': View, t: Tid, pc: Pc, pc': Pc, op: Op, sid: Sid)
    requires Accounted(v, sid) && CoverOk(v, sid) && sid in v.d.sess
    requires ViewStep(v, v', t, pc, pc', op, sid) && Fact(v.d, t, pc)
    requires ClosingStep(pc, pc', op, sid) && FlushStep(v.d, pc, pc', op, sid)
    requires !op.Enqueue? && !op.Forward? && !op.FlushWrite? && !op.OpenGate? && !op.Insert?
    requires E.SessionEffect(v.d, v'.d, op, sid) && v'.d.p.buffer.queues == v.d.p.buffer.queues
    ensures Accounted(v', sid)
  {
  }

  lemma AccountedFlush(v: View, v': View, t: Tid, pc: Pc, pc': Pc, op: Op, sid: Sid)
    requires Accounted(v, sid) && FlushOk(v, sid) && sid in v.d.sess
    requires ViewStep(v, v', t, pc, pc', op, sid)
    requires op.FlushWrite? && op.sid != sid ==> FlushPosition(pc', sid) == FlushPosition(pc, sid)
    requires (op.FlushWrite? || op.OpenGate?) && Performs(v.d, pc, pc', op)
    requires E.SessionEffect(v.d, v'.d, op, sid)
    requires v'.d.p.buffer == (if op.OpenGate? then P.EMPTY_BUFFER else v.d.p.buffer)
    ensures Accounted(v', sid)
  {
  }

  /** The packet loop forwards a datagram: nothing is queued with the gate open. */
  lemma AccountedForward(v: View, v': View, op: Op, sid: Sid)
    requires op.Forward? && Accounted(v, sid) && sid in v.d.sess && E.SessionEffect(v.d, v'.d, op, sid)
    requires op.sid == sid ==> v.d.sess[sid].written == v.d.sess[sid].accepted
    requires v.d.p.buffer.queues == map[] && v'.d.p.buffer.queues == map[] && v'.owner == v.owner
    ensures Accounted(v', sid)
  {
  }

  /** It queues a datagram: the flush is excluded, and the queue grows at its end. */
  lemma AccountedEnqueue(v: View, v': View, op: Op, sid: Sid)
    requires op.Enqueue? && Accounted(v, sid) && sid in v.d.sess && E.SessionEffect(v.d, v'.d, op, sid)
    requires FlushPosition(v.owner, sid) == 0 && v'.owner == v.owner
    requires v'.d.p.buffer == P.Enqueue(v.d.p.buffer, op.sid, op.d, v.d.o)
    ensures Accounted(v', sid)
  {
    var before, after := P.QueueOf(v.d.p.buffer, sid).packets, P.QueueOf(v'.d.p.buffer, sid).packets;
    assert Remaining(v, sid) == before && Remaining(v', sid) == after;
    assert after == if op.sid == sid && P.Accepts(v.d.p.buffer, sid, op.d, v.d.o) then before + [op.d] else before;
  }

  lemma AccountedLoop(v: View, v': View, pc: Pc, pc': Pc, op: Op, sid: Sid)
    requires Accounted(v, sid) && OrderOk(v, sid) && GateOk(v.d.p) && sid in v.d.sess
    requires ViewStep(v, v', Loop, pc, pc', op, sid) && Apart(v, Loop, pc) && Fact(v.d, Loop, pc)
    requires (op.Enqueue? || op.Forward?) && Performs(v.d, pc, pc', op)
    requires E.SessionEffect(v.d, v'.d, op, sid)
    requires v'.d.p.buffer == (if op.Enqueue? then P.Enqueue(v.d.p.buffer, op.sid, op.d, v.d.o) else v.d.p.buffer)
    ensures Accounted(v', sid)
  {
    SameOwner(v, v', pc, pc', op, sid);
    var w := v'.(owner := v.owner);
    if op.Forward? { AccountedForward(v, w, op, sid); } else { AccountedEnqueue(v, w, op, sid); }
  }

  /** No datagram is queued or forwarded during a flush, and none in a teardown. */
  lemma SameOwner(v: View, v': View, pc: Pc, pc': Pc, op: Op, sid: Sid)
    requires ViewStep(v, v', Loop, pc, pc', op, sid) && Apart(v, Loop, pc)
    requires (op.Enqueue? || op.Forward?) && Performs(v.d, pc, pc', op)
    ensures FlushPosition(v.owner, sid) == 0 && FlushPosition(v'.owner, sid) == 0
    ensures Dropping(v'.owner) <==> Dropping(v.owner)
  {
  }

  /** Queues are only dropped of closed sessions, or by a failed startup that closes all. */
  lemma AccountedDrop(v: View, v': View, t: Tid, pc: Pc, pc': Pc, op: Op, sid: Sid)
    requires Accounted(v, sid) && LifeOk(v, sid) && GateOk(v.d.p) && sid in v.d.sess
    requires ViewStep(v, v', t, pc, pc', op, sid) && Apart(v, t, pc)
    requires op.RemoveQueue? || op.RemoveQueues? || op.Teared?
    requires op.RemoveQueue? ==> Closed(v.d, op.sid)
    requires Performs(v.d, pc, pc', op) && E.BufferEffect(v.d, v'.d, op) && E.SessionEffect(v.d, v'.d, op, sid)
    ensures Accounted(v', sid)
  {
    if op.Teared? { AccountedTorn(v, v', t, pc, pc', op, sid); } else { AccountedRemoval(v, v', t, pc, pc', op, sid); }
  }

  /** A monitor's teardown finds the queues empty, and a shutdown leaves them. */
  lemma AccountedTorn(v: View, v': View, t: Tid, pc: Pc, pc': Pc, op: Op, sid: Sid)
    requires Accounted(v, sid) && GateOk(v.d.p) && sid in v.d.sess
    requires ViewStep(v, v', t, pc, pc', op, sid) && op.Teared? && Performs(v.d, pc, pc', op)
    requires E.BufferEffect(v.d, v'.d, op) && E.SessionEffect(v.d, v'.d, op, sid)
    ensures Accounted(v', sid)
  {
  }

  lemma AccountedRemoval(v: View, v': View, t: Tid, pc: Pc, pc': Pc, op: Op, sid: Sid)
    requires Accounted(v, sid) && LifeOk(v, sid) && sid in v.d.sess && ViewStep(v, v', t, pc, pc', op, sid)
    requires Apart(v, t, pc) && (op.RemoveQueue? || op.RemoveQueues?) && Performs(v.d, pc, pc', op)
    requires op.RemoveQueue? ==> Closed(v.d, op.sid)
    requires E.BufferEffect(v.d, v'.d, op) && E.SessionEffect(v.d, v'.d, op, sid)
    ensures Accounted(v', sid)
  {
  }

  lemma AccountedKept(v: View, v': View, t: Tid, pc: Pc, pc': Pc, op: Op, sid: Sid)
    requires OrderOk(v, sid) && FlushOk(v, sid) && LifeOk(v, sid) && CoverOk(v, sid) && GateOk(v.d.p)
    requires ViewStep(v, v', t, pc, pc', op, sid) && Apart(v, t, pc) && Role(t, pc) && Fact(v.d, t, pc)
    requires ClosingStep(pc, pc', op, sid) && FlushStep(v.d, pc, pc', op, sid)
    requires op.FlushWrite? && op.sid != sid ==> FlushPosition(pc', sid) == FlushPosition(pc, sid)
    requires op.RemoveQueue? ==> Closed(v.d, op.sid)
    requires E.BufferEffect(v.d, v'.d, op) && E.SessionEffect(v.d, v'.d, op, sid)
    requires Performs(v.d, pc, pc', op) && sid in v.d.sess
    ensures Accounted(v', sid)
  {
    if op.FlushWrite? || op.OpenGate? { AccountedFlush(v, v', t, pc, pc', op, sid); }
    else if op.Enqueue? || op.Forward? { AccountedLoop(v, v', pc, pc', op, sid); }
    else if op.RemoveQueue? || op.RemoveQueues? || op.Teared? { AccountedDrop(v, v', t, pc, pc', op, sid); }
    else if !op.Insert? { AccountedQuiet(v, v', t, pc, pc', op, sid); }
  }

  // ---- Every session ----------------------------------------------------------------

  predicate OrderAt(s: State, sid: Sid)
    requires Loop in s.threads
  {
    OrderOk(ViewOf(s, sid), sid) && FlushOk(ViewOf(s, sid), sid) && DropOk(ViewOf(s, sid), sid)
  }

  /** No datagram is accepted for two sessions. */
  predicate DisjointAt(d: Data, a: Sid, b: Sid) {
    a in d.sess && b in d.sess && a != b ==>
      forall i, j | 0 <= i < |d.sess[a].accepted| && 0 <= j < |d.sess[b].accepted| ::
        d.sess[a].accepted[i].id != d.sess[b].accepted[j].id
  }

  ghost predicate OrderInv(s: State) {
    && Loop in s.threads && PendingOk(s.d, s.threads[Loop])
    && (forall sid {:trigger OrderAt(s, sid)} :: OrderAt(s, sid))
    && (forall a, b {:trigger DisjointAt(s.d, a, b)} :: DisjointAt(s.d, a, b))
  }

  lemma IsApart(s: State, t: Tid, m: Move, sid: Sid)
    requires Inv(s) && t in s.threads && m.Go? && Free(s.l, s.threads[t], m.pc)
    ensures Apart(ViewOf(s, sid), t, s.threads[t])
  {
    assert At(s, t) && At(s, Loop);
    if s.l.admission.Some? { assert At(s, s.l.admission.value); }
    if t != Loop { OwnersExclusive(s, t, Loop); }
  }

  predicate LeadsToWrite(d: Data, pc: Pc, pc': Pc) {
    pc'.Forwarding? && pc'.fwd.FwdWrite? ==>
      pc.Forwarding? && pc.fwd.FwdTouch? && pc'.sid == pc.sid && !Closed(d, pc.sid)
  }

  lemma WriteSteps(d: Data, t: Tid, pc: Pc, x: Input)
    requires Plan(d, t, pc, x).Go?
    ensures LeadsToWrite(d, pc, Plan(d, t, pc, x).pc)
  {
  }

  /** What a planned step means for the order of one session's datagrams. */
  predicate OrderMove(d: Data, t: Tid, pc: Pc, pc': Pc, op: Op, sid: Sid) {
    && (t == Loop ==> PendingStep(d, pc, pc', op))
    && (op.Arrived? || op.Enqueue? || op.Forward? ==> t == Loop)
    && ClosingStep(pc, pc', op, sid) && FlushStep(d, pc, pc', op, sid) && LeadsToWrite(d, pc, pc')
    && StaysDropping(pc, pc', op)
    && (op.FlushWrite? && op.sid != sid ==> FlushPosition(pc', sid) == FlushPosition(pc, sid))
  }

  lemma OrderMoves(d: Data, t: Tid, pc: Pc, x: Input, sid: Sid)
    requires Role(t, pc) && Plan(d, t, pc, x).Go?
    ensures OrderMove(d, t, pc, Plan(d, t, pc, x).pc, Plan(d, t, pc, x).op, sid)
  {
    PendingSteps(d, t, pc, x);
    ClosingSteps(d, t, pc, x, sid);
    FlushSteps(d, t, pc, x, sid);
    WriteSteps(d, t, pc, x);
    StaysDroppings(d, t, pc, x);
    ArrivalsAreLoops(d, t, pc, x);
  }

  lemma ArrivalsAreLoops(d: Data, t: Tid, pc: Pc, x: Input)
    requires Role(t, pc) && Plan(d, t, pc, x).Go?
    ensures var op := Plan(d, t, pc, x).op; op.Arrived? || op.Enqueue? || op.Forward? ==> t == Loop
  {
  }

  lemma OrderAtKept(s: State, s': State, t: Tid, x: Input, sid: Sid)
    requires Inv(s) && Inv(s') && OrderInv(s) && ThreadStep(s, s', t, x)
    ensures OrderAt(s', sid) && PendingOk(s'.d, s'.threads[Loop])
  {
    var m := Plan(s.d, t, s.threads[t], x);
    assert At(s, t);
    Steps(s, s', t, x);
    OrderMoves(s.d, t, s.threads[t], x, sid);
    if m.op.RemoveQueue? { RemovedIsClosed(s, s', t, x); }
    OrderStepping(s, s', t, m, sid);
  }

  lemma OrderStepping(s: State, s': State, t: Tid, m: Move, sid: Sid)
    requires Inv(s) && Inv(s') && OrderInv(s) && Stepping(s, s', t, m)
    requires OrderMove(s.d, t, s.threads[t], m.pc, m.op, sid)
    requires m.op.RemoveQueue? ==> Closed(s.d, m.op.sid)
    ensures OrderAt(s', sid) && PendingOk(s'.d, s'.threads[Loop])
  {
    assert At(s, t) && SessionAt(s, sid) && SessionAt(s', sid) && OrderAt(s, sid);
    if s.l.admission.Some? { assert At(s, s.l.admission.value); }
    ViewSteps(s, s', t, m, sid);
    IsApart(s, t, m, sid);
    OrderOkKept(ViewOf(s, sid), ViewOf(s', sid), t, s.threads[t], m.pc, m.op, sid);
  }

  lemma OrderOkKept(v: View, v': View, t: Tid, pc: Pc, pc': Pc, op: Op, sid: Sid)
    requires OrderOk(v, sid) && FlushOk(v, sid) && DropOk(v, sid)
    requires LifeOk(v, sid) && CoverOk(v, sid) && GateOk(v.d.p)
    requires LifeOk(v', sid) && PendingOk(v.d, v.loop)
    requires ViewStep(v, v', t, pc, pc', op, sid) && Apart(v, t, pc) && Role(t, pc) && Fact(v.d, t, pc)
    requires OrderMove(v.d, t, pc, pc', op, sid)
    requires op.RemoveQueue? ==> Closed(v.d, op.sid)
    requires Performs(v.d, pc, pc', op) && Applied(v.d, v'.d, op)
    ensures OrderOk(v', sid) && FlushOk(v', sid) && DropOk(v', sid) && PendingOk(v'.d, v'.loop)
  {
    E.SessionChange(v.d, v'.d, op, sid);
    E.BufferChange(v.d, v'.d, op);
    ArrivalFrame(v.d, v'.d, op);
    OrderMoved(v, v', t, pc, pc', op, sid);
  }

  lemma OrderMoved(v: View, v': View, t: Tid, pc: Pc, pc': Pc, op: Op, sid: Sid)
    requires OrderOk(v, sid) && FlushOk(v, sid) && DropOk(v, sid)
    requires LifeOk(v, sid) && CoverOk(v, sid) && GateOk(v.d.p)
    requires LifeOk(v', sid) && PendingOk(v.d, v.loop)
    requires ViewStep(v, v', t, pc, pc', op, sid) && Apart(v, t, pc) && Role(t, pc) && Fact(v.d, t, pc)
    requires OrderMove(v.d, t, pc, pc', op, sid) && Performs(v.d, pc, pc', op)
    requires op.RemoveQueue? ==> Closed(v.d, op.sid)
    requires E.BufferEffect(v.d, v'.d, op) && E.SessionEffect(v.d, v'.d, op, sid)
    requires v'.d.h.arrived == v.d.h.arrived + (if op.Arrived? then 1 else 0)
    ensures OrderOk(v', sid) && FlushOk(v', sid) && DropOk(v', sid) && PendingOk(v'.d, v'.loop)
  {
    BoundKept(v, v', t, pc, pc', op, sid);
    FlushKept(v, v', t, pc, pc', op, sid);
    DropKept(v, v', t, pc, pc', op, sid);
    if sid in v.d.sess {
      LogsKept(v, v', t, pc, pc', op, sid);
      AccountedKept(v, v', t, pc, pc', op, sid);
      if v'.loop.Forwarding? && v'.loop.fwd.FwdWrite? && v'.loop.sid == sid {
        WritesCaughtUp(v, v', t, pc, pc', op, sid);
      }
    }
  }

  lemma DisjointKept(s: State, s': State, t: Tid, m: Move, a: Sid, b: Sid)
    requires Inv(s) && OrderInv(s) && Stepping(s, s', t, m)
    requires OrderMove(s.d, t, s.threads[t], m.pc, m.op, a)
    ensures DisjointAt(s'.d, a, b)
  {
    assert OrderAt(s, a) && OrderAt(s, b) && DisjointAt(s.d, a, b);
    E.SessionChange(s.d, s'.d, m.op, a);
    E.SessionChange(s.d, s'.d, m.op, b);
    DisjointData(s.d, s'.d, m.op, a, b, AcceptedBound(s.d, s.threads[Loop]));
  }

  lemma DisjointData(d: Data, d': Data, op: Op, a: Sid, b: Sid, bound: nat)
    requires DisjointAt(d, a, b)
    requires E.SessionEffect(d, d', op, a) && E.SessionEffect(d, d', op, b)
    requires a in d.sess ==> Ascending(d.sess[a].accepted, bound)
    requires b in d.sess ==> Ascending(d.sess[b].accepted, bound)
    requires (op.Enqueue? || op.Forward? ==> op.d.id == bound) && (op.Insert? ==> op.sid !in d.sess)
    ensures DisjointAt(d', a, b)
  {
  }

  lemma OrderStep(s: State, s': State, t: Tid, x: Input)
    requires Inv(s) && Inv(s') && OrderInv(s) && ThreadStep(s, s', t, x)
    ensures OrderInv(s')
  {
    assert At(s, t);
    Steps(s, s', t, x);
    OrderAtKept(s, s', t, x, 0);
    forall sid {:trigger OrderAt(s', sid)} ensures OrderAt(s', sid) { OrderAtKept(s, s', t, x, sid); }
    forall a, b {:trigger DisjointAt(s'.d, a, b)} ensures DisjointAt(s'.d, a, b) {
      OrderMoves(s.d, t, s.threads[t], x, a);
      DisjointKept(s, s', t, Plan(s.d, t, s.threads[t], x), a, b);
    }
  }

  lemma OrderOutsideAt(s: State, s': State, op: Op, sid: Sid)
    requires Inv(s) && Inv(s') && OrderInv(s) && OutsideStep(s, s', op)
    ensures OrderAt(s', sid) && PendingOk(s'.d, s'.threads[Loop])
  {
    assert SessionAt(s, sid) && SessionAt(s', sid) && OrderAt(s, sid);
    OutsideView(s, s', op, sid);
    OutsideMove(ViewOf(s, sid), op, sid);
    OrderOkKept(ViewOf(s, sid), ViewOf(s', sid), Sweeper, Exited, Exited, op, sid);
  }

  lemma OutsideMove(v: View, op: Op, sid: Sid)
    requires Spontaneous(v.d, op) && (HoldsReader(v.loop) ==> !HoldsWriter(v.owner))
    ensures OrderMove(v.d, Sweeper, Exited, Exited, op, sid) && Performs(v.d, Exited, Exited, op)
    ensures Apart(v, Sweeper, Exited) && Fact(v.d, Sweeper, Exited)
  {
  }

  /** A step outside the goroutines as the invariants of one session see it. */
  lemma OutsideView(s: State, s': State, op: Op, sid: Sid)
    requires Inv(s) && OutsideStep(s, s', op)
    ensures Loop in s'.threads
    ensures ViewStep(ViewOf(s, sid), ViewOf(s', sid), Sweeper, Exited, Exited, op, sid)
    ensures HoldsReader(s.threads[Loop]) ==> !HoldsWriter(OwnerPc(s))
  {
    assert At(s, Loop);
    if s.l.admission.Some? { assert At(s, s.l.admission.value); }
    if op.Fire? { assert At(s, Callback(op.id)); }
  }

  lemma OrderOutside(s: State, s': State, op: Op)
    requires Inv(s) && Inv(s') && OrderInv(s) && OutsideStep(s, s', op)
    ensures OrderInv(s')
  {
    assert At(s, Loop);
    if op.Fire? { assert At(s, Callback(op.id)); }
    forall sid {:trigger OrderAt(s', sid)} ensures OrderAt(s', sid) && PendingOk(s'.d, s'.threads[Loop]) {
      OrderOutsideAt(s, s', op, sid);
    }
    assert OrderAt(s', 0);
    forall a, b {:trigger DisjointAt(s'.d, a, b)} ensures DisjointAt(s'.d, a, b) {
      assert OrderAt(s, a) && OrderAt(s, b) && DisjointAt(s.d, a, b);
      E.SessionChange(s.d, s'.d, op, a);
      E.SessionChange(s.d, s'.d, op, b);
      DisjointData(s.d, s'.d, op, a, b, AcceptedBound(s.d, s.threads[Loop]));
    }
  }

  lemma OrderInit(s: State)
    requires Init(s)
    ensures OrderInv(s)
  {
  }
}
