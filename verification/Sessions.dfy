/** Every session: where it is stored, who closes it, who watches it, and that
    behind a closed gate it is queued. */
module Sessions {
  import opened Basics
  import opened Lifecycle
  import opened Control
  import opened Facts
  import E = Effects

  /** Sessions that a goroutine took out of the store and has not closed. */
  function ClosingOf(pc: Pc): set<Sid> {
    match pc
    case Teardown(_, at) => if at.TdClose? || at.TdWait? then at.todo else {}
    case Admitting(at, _, _) => if at.ReplClose? then {at.sid} else {}
    case _ => {}
  }

  predicate TearingDown(pc: Pc) {
    pc.Teardown? && TornDown(pc.td)
  }

  /** The packet loop created the session and has not yet queued or forwarded its
      first datagram. */
  predicate Admitted(pc: Pc, sid: Sid) {
    || BornAt(pc, sid)
    || (pc.Forwarding? && pc.site.Final? && pc.sid == sid && (pc.fwd.FwdLock? || pc.fwd.FwdCheck?))
  }

  /** What the invariant of one session reads: the data, and the program counters
      of the owner of `admissionMu` (or `Exited`), of the packet loop and of the
      session's watcher. */
  datatype View = View(d: Data, owner: Pc, loop: Pc, watcher: Option<Pc>)

  predicate Closed(d: Data, sid: Sid) {
    sid in d.sess && d.sess[sid].closed
  }

  predicate LifeOk(v: View, sid: Sid) {
    if sid !in v.d.sess then sid !in v.d.h.removed && sid !in v.d.p.buffer.queues
    else
      var y := v.d.sess[sid];
      && (y.done ==> y.closed)
      && (Stored(v.d, y.key, sid) <==> sid !in v.d.h.removed)
  }

  predicate CoverOk(v: View, sid: Sid) {
    sid in v.d.sess && !v.d.sess[sid].closed ==> Stored(v.d, v.d.sess[sid].key, sid) || sid in ClosingOf(v.owner)
  }

  predicate WatchedOk(v: View, sid: Sid) {
    if sid !in v.d.sess || BornAt(v.loop, sid) then v.watcher.None?
    else v.watcher.Some? && (!v.d.sess[sid].done ==> v.watcher.value == Watching(Watch))
  }

  /** A watcher that has not yet removed its session's queue. */
  predicate Pending(watcher: Option<Pc>) {
    watcher.Some? && watcher.value.Watching? && !watcher.value.watch.WatchSchedule?
  }

  predicate WatchOk(v: View, sid: Sid) {
    WatchedOk(v, sid) && (sid in v.d.p.buffer.queues ==> Pending(v.watcher))
  }

  predicate QueuedOk(v: View, sid: Sid) {
    sid in v.d.sess && !v.d.sess[sid].closed && !v.d.p.ready ==>
      sid in v.d.p.buffer.queues || TearingDown(v.owner) || Admitted(v.loop, sid)
  }

  predicate CooldownOk(v: View, sid: Sid) {
    sid in v.d.sess && !v.d.sess[sid].closed && v.d.now < v.d.p.blockedUntil ==>
      TearingDown(v.owner) && v.owner.why.Failed?
  }

  predicate SessionOk(v: View, sid: Sid) {
    LifeOk(v, sid) && CoverOk(v, sid) && WatchOk(v, sid) && QueuedOk(v, sid) && CooldownOk(v, sid)
  }

  /** A step of `t` from `pc` to `pc'` with effect `op`, as the view of `sid` sees it. */
  predicate ViewStep(v: View, v': View, t: Tid, pc: Pc, pc': Pc, op: Op, sid: Sid) {
    && (HoldsAdmission(pc) ==> v.owner == pc)
    && (!HoldsAdmission(pc) && HoldsAdmission(pc') ==> v.owner == Exited)
    && v'.owner == (if HoldsAdmission(pc') then pc' else if HoldsAdmission(pc) then Exited else v.owner)
    && (t == Loop ==> v.loop == pc)
    && v'.loop == (if t == Loop then pc' else v.loop)
    && (t == Watcher(sid) ==> v.watcher == Some(pc))
    && v'.watcher == (if t == Watcher(sid) then Some(pc')
                      else if op.CancelTimer? && op.sid == sid then Some(Watching(Watch))
                      else v.watcher)
  }

  /** How a step changes the set of sessions being closed. */
  predicate ClosingStep(pc: Pc, pc': Pc, op: Op, sid: Sid) {
    && (sid in ClosingOf(pc) ==> sid in ClosingOf(pc') || (op.Close? && op.sid == sid))
    && (TearingDown(pc) && !TearingDown(pc') ==> pc.td == TdClose({}))
    && (TearingDown(pc) && TearingDown(pc') ==> pc.why == pc'.why)
    && (op.Unstore? && op.who.ByReplacement? && op.sid == sid ==> sid in ClosingOf(pc'))
  }

  lemma ClosingSteps(d: Data, t: Tid, pc: Pc, x: Input, sid: Sid)
    requires Plan(d, t, pc, x).Go?
    ensures ClosingStep(pc, Plan(d, t, pc, x).pc, Plan(d, t, pc, x).op, sid)
  {
  }

  /** How the packet loop leaves the points where a session is still `Admitted`. */
  predicate AdmittedStep(d: Data, pc: Pc, pc': Pc, op: Op, sid: Sid) {
    Admitted(pc, sid) ==>
      || Admitted(pc', sid)
      || d.p.ready
      || (sid in d.sess && d.sess[sid].closed)
      || (op.Enqueue? && op.sid == sid)
  }

  lemma AdmittedSteps(d: Data, t: Tid, pc: Pc, x: Input, sid: Sid)
    requires Plan(d, t, pc, x).Go?
    ensures AdmittedStep(d, pc, Plan(d, t, pc, x).pc, Plan(d, t, pc, x).op, sid)
  {
  }

  predicate WatchMove(d: Data, sid: Sid, pc: Pc, pc': Pc, op: Op) {
    && pc' != Watching(Watch)
    && (pc == Watching(Watch) ==> IsDone(d, sid))
    && ((pc'.Watching? && !pc'.watch.WatchSchedule?)
        || op == RemoveQueue(sid) || !pc.Watching? || pc.watch.WatchSchedule?)
    && (op.Unstore? ==> op.sid == sid)
  }

  lemma WatchMoves(d: Data, sid: Sid, pc: Pc, x: Input)
    requires Role(Watcher(sid), pc) && Plan(d, Watcher(sid), pc, x).Go?
    ensures WatchMove(d, sid, pc, Plan(d, Watcher(sid), pc, x).pc, Plan(d, Watcher(sid), pc, x).op)
  {
  }

  lemma LifeKept(v: View, v': View, pc: Pc, pc': Pc, op: Op, sid: Sid)
    requires LifeOk(v, sid) && StoreOk(v.d)
    requires Performs(v.d, pc, pc', op) && Applied(v.d, v'.d, op)
    requires op.FinishReader? ==> op.sid in v.d.sess && v.d.sess[op.sid].closed
    ensures LifeOk(v', sid)
  {
    E.SessionChange(v.d, v'.d, op, sid);
    E.BufferChange(v.d, v'.d, op);
    if op.Insert? { LifeInserted(v, v', pc, pc', op, sid); }
    else if E.ChangesStore(op) { LifeMoved(v, v', pc, pc', op, sid); }
    else {
      E.StoreFrame(v.d, v'.d, op);
      LifeQuiet(v, v', op, sid);
    }
  }

  lemma LifeQuiet(v: View, v': View, op: Op, sid: Sid)
    requires LifeOk(v, sid) && E.SessionEffect(v.d, v'.d, op, sid) && E.BufferEffect(v.d, v'.d, op)
    requires !E.ChangesStore(op) && v'.d.store == v.d.store && v'.d.h.removed == v.d.h.removed
    requires op.FinishReader? ==> op.sid in v.d.sess && v.d.sess[op.sid].closed
    ensures LifeOk(v', sid)
  {
  }

  lemma LifeInserted(v: View, v': View, pc: Pc, pc': Pc, op: Op, sid: Sid)
    requires LifeOk(v, sid) && E.SessionEffect(v.d, v'.d, op, sid) && op.Insert? && Performs(v.d, pc, pc', op)
    requires v'.d.store == v.d.store[op.key := op.sid] && v'.d.h.removed == v.d.h.removed
    requires v'.d.p.buffer.queues == v.d.p.buffer.queues
    ensures LifeOk(v', sid)
  {
  }

  /** A session leaves the store. */
  lemma LifeMoved(v: View, v': View, pc: Pc, pc': Pc, op: Op, sid: Sid)
    requires LifeOk(v, sid) && StoreOk(v.d) && E.SessionEffect(v.d, v'.d, op, sid) && E.ChangesStore(op) && !op.Insert?
    requires Performs(v.d, pc, pc', op) && StoreApplied(v.d, v'.d.store, v'.d.h.removed, op)
    requires v'.d.p.buffer.queues == v.d.p.buffer.queues
    ensures LifeOk(v', sid)
  {
  }

  lemma CoverKept(v: View, v': View, t: Tid, pc: Pc, pc': Pc, op: Op, sid: Sid)
    requires LifeOk(v, sid) && CoverOk(v, sid) && WatchOk(v, sid)
    requires ViewStep(v, v', t, pc, pc', op, sid) && ClosingStep(pc, pc', op, sid)
    requires op.Unstore? && op.who.ByWatcher? ==> t == Watcher(op.sid)
    requires Performs(v.d, pc, pc', op) && Applied(v.d, v'.d, op)
    ensures CoverOk(v', sid)
  {
    E.SessionChange(v.d, v'.d, op, sid);
    if E.ChangesStore(op) { CoverMoved(v, v', t, pc, pc', op, sid); }
    else {
      E.StoreFrame(v.d, v'.d, op);
      CoverQuiet(v, v', t, pc, pc', op, sid);
    }
  }

  lemma CoverQuiet(v: View, v': View, t: Tid, pc: Pc, pc': Pc, op: Op, sid: Sid)
    requires CoverOk(v, sid) && ViewStep(v, v', t, pc, pc', op, sid) && ClosingStep(pc, pc', op, sid)
    requires E.SessionEffect(v.d, v'.d, op, sid) && !E.ChangesStore(op) && v'.d.store == v.d.store
    ensures CoverOk(v', sid)
  {
  }

  lemma CoverMoved(v: View, v': View, t: Tid, pc: Pc, pc': Pc, op: Op, sid: Sid)
    requires LifeOk(v, sid) && CoverOk(v, sid) && WatchOk(v, sid)
    requires ViewStep(v, v', t, pc, pc', op, sid) && ClosingStep(pc, pc', op, sid)
    requires op.Unstore? && op.who.ByWatcher? ==> t == Watcher(op.sid)
    requires Performs(v.d, pc, pc', op) && E.SessionEffect(v.d, v'.d, op, sid) && E.ChangesStore(op)
    requires StoreApplied(v.d, v'.d.store, v'.d.h.removed, op)
    ensures CoverOk(v', sid)
  {
    if op.Insert? { CoverInserted(v, v', pc, pc', op, sid); }
    else if op.Unstore? { CoverUnstored(v, v', t, pc, pc', op, sid); }
    else { CoverTaken(v, v', t, pc, pc', op, sid); }
  }

  lemma CoverUnstored(v: View, v': View, t: Tid, pc: Pc, pc': Pc, op: Op, sid: Sid)
    requires LifeOk(v, sid) && CoverOk(v, sid) && WatchOk(v, sid) && op.Unstore?
    requires ViewStep(v, v', t, pc, pc', op, sid) && ClosingStep(pc, pc', op, sid)
    requires op.who.ByWatcher? ==> t == Watcher(op.sid)
    requires Performs(v.d, pc, pc', op) && E.SessionEffect(v.d, v'.d, op, sid)
    requires StoreApplied(v.d, v'.d.store, v'.d.h.removed, op)
    ensures CoverOk(v', sid)
  {
  }

  lemma CoverTaken(v: View, v': View, t: Tid, pc: Pc, pc': Pc, op: Op, sid: Sid)
    requires LifeOk(v, sid) && CoverOk(v, sid) && (op.Expire? || op.TakeAll?)
    requires ViewStep(v, v', t, pc, pc', op, sid) && ClosingStep(pc, pc', op, sid)
    requires Performs(v.d, pc, pc', op) && E.SessionEffect(v.d, v'.d, op, sid)
    requires StoreApplied(v.d, v'.d.store, v'.d.h.removed, op)
    ensures CoverOk(v', sid)
  {
  }

  lemma CoverInserted(v: View, v': View, pc: Pc, pc': Pc, op: Op, sid: Sid)
    requires CoverOk(v, sid) && op.Insert? && Performs(v.d, pc, pc', op) && v.owner == pc
    requires E.SessionEffect(v.d, v'.d, op, sid) && v'.d.store == v.d.store[op.key := op.sid]
    ensures CoverOk(v', sid)
  {
  }

  lemma WatchedKept(v: View, v': View, t: Tid, pc: Pc, pc': Pc, op: Op, sid: Sid)
    requires LifeOk(v, sid) && WatchedOk(v, sid)
    requires ViewStep(v, v', t, pc, pc', op, sid) && Ordered(pc, pc', op) && Role(t, pc)
    requires t == Watcher(sid) ==> WatchMove(v.d, sid, pc, pc', op)
    requires op.CancelTimer? ==> op.sid in v.d.sess && t == Loop && BornAt(pc, op.sid)
    requires Performs(v.d, pc, pc', op) && Applied(v.d, v'.d, op)
    ensures WatchedOk(v', sid)
  {
    E.SessionChange(v.d, v'.d, op, sid);
  }

  lemma PendingKept(v: View, v': View, t: Tid, pc: Pc, pc': Pc, op: Op, sid: Sid)
    requires LifeOk(v, sid) && WatchOk(v, sid) && ViewStep(v, v', t, pc, pc', op, sid)
    requires t == Watcher(sid) ==> WatchMove(v.d, sid, pc, pc', op)
    requires op.Enqueue? ==> t == Loop && pc.Forwarding?
    requires Performs(v.d, pc, pc', op) && Applied(v.d, v'.d, op)
    ensures sid in v'.d.p.buffer.queues ==> Pending(v'.watcher)
  {
    E.BufferChange(v.d, v'.d, op);
    PendingMoved(v, v', t, pc, pc', op, sid);
  }

  lemma PendingMoved(v: View, v': View, t: Tid, pc: Pc, pc': Pc, op: Op, sid: Sid)
    requires LifeOk(v, sid) && WatchOk(v, sid) && ViewStep(v, v', t, pc, pc', op, sid)
    requires t == Watcher(sid) ==> WatchMove(v.d, sid, pc, pc', op)
    requires op.Enqueue? ==> t == Loop && pc.Forwarding?
    requires Performs(v.d, pc, pc', op) && E.BufferEffect(v.d, v'.d, op)
    ensures sid in v'.d.p.buffer.queues ==> Pending(v'.watcher)
  {
  }

  lemma QueuedKept(v: View, v': View, t: Tid, pc: Pc, pc': Pc, op: Op, sid: Sid)
    requires LifeOk(v, sid) && CoverOk(v, sid) && QueuedOk(v, sid)
    requires ViewStep(v, v', t, pc, pc', op, sid) && ClosingStep(pc, pc', op, sid) && Role(t, pc)
    requires AdmittedStep(v.d, pc, pc', op, sid) && Fact(v.d, t, pc)
    requires op.RemoveQueue? ==> op.sid in v.d.sess && v.d.sess[op.sid].closed
    requires Performs(v.d, pc, pc', op) && Applied(v.d, v'.d, op)
    ensures QueuedOk(v', sid)
  {
    E.SessionChange(v.d, v'.d, op, sid);
    E.BufferChange(v.d, v'.d, op);
    if E.ChangesGate(op) { QueuedToggled(v, v', t, pc, pc', op, sid); }
    else {
      E.GateFrame(v.d, v'.d, op);
      if E.ChangesQueues(op) { QueuedMoved(v, v', t, pc, pc', op, sid); }
      else { QueuedQuiet(v, v', t, pc, pc', op, sid); }
    }
  }

  lemma QueuedQuiet(v: View, v': View, t: Tid, pc: Pc, pc': Pc, op: Op, sid: Sid)
    requires CoverOk(v, sid) && QueuedOk(v, sid) && ViewStep(v, v', t, pc, pc', op, sid)
    requires ClosingStep(pc, pc', op, sid) && TeardownFact(v.d, pc)
    requires Role(t, pc) && AdmittedStep(v.d, pc, pc', op, sid) && !E.ChangesQueues(op)
    requires op.Insert? ==> Admitted(pc', op.sid) && t == Loop
    requires v'.d.p.buffer.queues == v.d.p.buffer.queues && v'.d.p.ready == v.d.p.ready
    requires E.SessionEffect(v.d, v'.d, op, sid)
    ensures QueuedOk(v', sid)
  {
  }

  /** The queues change behind the closed gate. */
  lemma QueuedMoved(v: View, v': View, t: Tid, pc: Pc, pc': Pc, op: Op, sid: Sid)
    requires LifeOk(v, sid) && QueuedOk(v, sid) && ViewStep(v, v', t, pc, pc', op, sid) && Role(t, pc)
    requires AdmittedStep(v.d, pc, pc', op, sid) && Performs(v.d, pc, pc', op)
    requires op.RemoveQueue? ==> op.sid in v.d.sess && v.d.sess[op.sid].closed
    requires E.ChangesQueues(op) && !E.ChangesGate(op) && v'.d.p.ready == v.d.p.ready
    requires E.SessionEffect(v.d, v'.d, op, sid) && E.BufferEffect(v.d, v'.d, op)
    ensures QueuedOk(v', sid)
  {
  }

  /** The gate closes only over an empty store, or at the start of a teardown. */
  lemma QueuedToggled(v: View, v': View, t: Tid, pc: Pc, pc': Pc, op: Op, sid: Sid)
    requires CoverOk(v, sid) && QueuedOk(v, sid) && ViewStep(v, v', t, pc, pc', op, sid) && Role(t, pc)
    requires AdmittedStep(v.d, pc, pc', op, sid) && Fact(v.d, t, pc) && Performs(v.d, pc, pc', op)
    requires E.ChangesGate(op) && E.SessionEffect(v.d, v'.d, op, sid) && E.BufferEffect(v.d, v'.d, op)
    requires ProxyApplied(v.d, v'.d.p, op)
    ensures QueuedOk(v', sid)
  {
    if op.Teared? { QueuedTorn(v, v', t, pc, pc', op, sid); }
    else if op.MarkStopped? { QueuedMarked(v, v', t, pc, pc', op, sid); }
    else { QueuedOpened(v, v', t, pc, pc', op, sid); }
  }

  lemma QueuedOpened(v: View, v': View, t: Tid, pc: Pc, pc': Pc, op: Op, sid: Sid)
    requires CoverOk(v, sid) && QueuedOk(v, sid) && ViewStep(v, v', t, pc, pc', op, sid) && Role(t, pc)
    requires AdmittedStep(v.d, pc, pc', op, sid) && Fact(v.d, t, pc) && Performs(v.d, pc, pc', op)
    requires op.OpenGate? || op.AdoptRunning?
    requires E.SessionEffect(v.d, v'.d, op, sid) && E.BufferEffect(v.d, v'.d, op)
    requires ProxyApplied(v.d, v'.d.p, op)
    ensures QueuedOk(v', sid)
  {
  }

  lemma QueuedTorn(v: View, v': View, t: Tid, pc: Pc, pc': Pc, op: Op, sid: Sid)
    requires ViewStep(v, v', t, pc, pc', op, sid) && op.Teared? && Performs(v.d, pc, pc', op)
    ensures QueuedOk(v', sid)
  {
  }

  lemma QueuedMarked(v: View, v': View, t: Tid, pc: Pc, pc': Pc, op: Op, sid: Sid)
    requires CoverOk(v, sid) && QueuedOk(v, sid) && ViewStep(v, v', t, pc, pc', op, sid) && Role(t, pc)
    requires Fact(v.d, t, pc) && op.MarkStopped? && Performs(v.d, pc, pc', op)
    requires E.SessionEffect(v.d, v'.d, op, sid) && v'.d.p.buffer == v.d.p.buffer
    ensures QueuedOk(v', sid)
  {
  }

  lemma CooldownKept(v: View, v': View, t: Tid, pc: Pc, pc': Pc, op: Op, sid: Sid)
    requires CoverOk(v, sid) && CooldownOk(v, sid)
    requires ViewStep(v, v', t, pc, pc', op, sid) && ClosingStep(pc, pc', op, sid)
    requires Performs(v.d, pc, pc', op) && Applied(v.d, v'.d, op)
    requires Fact(v.d, t, pc) && Role(t, pc)
    ensures CooldownOk(v', sid)
  {
    E.SessionChange(v.d, v'.d, op, sid);
    E.ClockFrame(v.d, v'.d, op);
    E.GateFrame(v.d, v'.d, op);
  }

  lemma StoreOkKept(d: Data, d': Data, pc: Pc, pc': Pc, op: Op)
    requires StoreOk(d) && Performs(d, pc, pc', op) && Applied(d, d', op)
    ensures StoreOk(d')
  {
    if !E.ChangesStore(op) { E.StoreFrame(d, d', op); }
    forall key | key in d'.store ensures d'.store[key] in d'.sess && d'.sess[d'.store[key]].key == key {
      E.SessionChange(d, d', op, d'.store[key]);
    }
  }

  lemma SessionKept(v: View, v': View, t: Tid, pc: Pc, pc': Pc, op: Op, sid: Sid)
    requires SessionOk(v, sid) && StoreOk(v.d)
    requires ViewStep(v, v', t, pc, pc', op, sid) && Role(t, pc) && Ordered(pc, pc', op)
    requires ClosingStep(pc, pc', op, sid) && AdmittedStep(v.d, pc, pc', op, sid)
    requires t == Watcher(sid) ==> WatchMove(v.d, sid, pc, pc', op)
    requires Fact(v.d, t, pc) && Performs(v.d, pc, pc', op) && Applied(v.d, v'.d, op)
    requires op.FinishReader? ==> Closed(v.d, op.sid)
    requires op.RemoveQueue? ==> Closed(v.d, op.sid)
    requires op.Unstore? && op.who.ByWatcher? ==> t == Watcher(op.sid)
    ensures SessionOk(v', sid)
  {
    LifeKept(v, v', pc, pc', op, sid);
    CoverKept(v, v', t, pc, pc', op, sid);
    WatchedKept(v, v', t, pc, pc', op, sid);
    PendingKept(v, v', t, pc, pc', op, sid);
    QueuedKept(v, v', t, pc, pc', op, sid);
    CooldownKept(v, v', t, pc, pc', op, sid);
  }

  // ---- Sessions named by program counters ------------------------------------

  function Mentions(pc: Pc): set<Sid> {
    match pc
    case Forwarding(_, _, sid, _, _) => {sid}
    case Admitting(at, _, _) =>
      (match at
       case ReplRemove(sid) => {sid}
       case ReplClose(sid) => {sid}
       case CancelStop(sid, _) => {sid}
       case _ => {})
    case Teardown(_, at) => if at.TdClose? || at.TdWait? then at.todo else {}
    case Sweeping(at) =>
      (match at
       case Refresh(_, pending) => pending
       case Expiring(_, expired) => expired
       case ExpClose(todo, _, _) => todo
       case ExpWait(_, todo, _, _) => todo
       case _ => {})
    case _ => {}
  }

  /** The session that a goroutine has closed and waits for. */
  function WaitsFor(pc: Pc): Option<Sid> {
    match pc
    case Admitting(at, _, _) => if at.ReplWait? || at.ReplQueue? then Some(at.sid) else None
    case Teardown(_, at) => if at.TdWait? then Some(at.sid) else None
    case Sweeping(at) => if at.ExpWait? then Some(at.sid) else None
    case _ => None
  }

  /** The packet loop handles a session under that session's own key. */
  predicate KeyOk(d: Data, pc: Pc) {
    && (pc.Forwarding? && pc.sid in d.sess ==> d.sess[pc.sid].key == pc.key)
    && (pc.Admitting? && pc.admit.ReplRemove? && pc.admit.sid in d.sess ==> d.sess[pc.admit.sid].key == pc.key)
    && (pc.Admitting? && pc.admit.CancelStop? && pc.admit.sid in d.sess ==> d.sess[pc.admit.sid].key == pc.key)
  }

  predicate NamesOk(d: Data, pc: Pc) {
    && Mentions(pc) <= d.sess.Keys
    && (WaitsFor(pc).Some? ==> Closed(d, WaitsFor(pc).value))
    && KeyOk(d, pc)
  }

  /** Sessions are never forgotten, renamed or reopened. */
  predicate Persist(d: Data, d': Data) {
    && d.sess.Keys <= d'.sess.Keys
    && forall sid | sid in d.sess :: d'.sess[sid].key == d.sess[sid].key && (d.sess[sid].closed ==> d'.sess[sid].closed)
  }

  lemma Persists(d: Data, d': Data, pc: Pc, pc': Pc, op: Op)
    requires Performs(d, pc, pc', op) && Applied(d, d', op)
    ensures Persist(d, d')
  {
    forall sid | sid in d.sess
      ensures sid in d'.sess && d'.sess[sid].key == d.sess[sid].key && (d.sess[sid].closed ==> d'.sess[sid].closed)
    {
      E.SessionChange(d, d', op, sid);
    }
  }

  lemma NamesPersist(d: Data, d': Data, pc: Pc)
    requires Persist(d, d') && NamesOk(d, pc)
    ensures NamesOk(d', pc)
  {
  }

  /** What a step that neither creates nor closes a session relies on to name only
      sessions that exist. */
  predicate NamesKnown(d: Data, pc: Pc) {
    && StoreOk(d) && NamesOk(d, pc)
    && (forall sid | sid in d.p.buffer.queues :: sid in d.sess)
    && (forall sid | sid in d.sess && d.sess[sid].done :: d.sess[sid].closed)
    && (pc.Admitting? && pc.admit.ReplRemove? && !Stored(d, pc.key, pc.admit.sid) ==> Closed(d, pc.admit.sid))
  }

  lemma NamesPlanned(d: Data, t: Tid, pc: Pc, x: Input)
    requires NamesKnown(d, pc) && Plan(d, t, pc, x).Go?
    requires var op := Plan(d, t, pc, x).op; !op.Insert? && !op.Close?
    ensures NamesOk(d, Plan(d, t, pc, x).pc)
  {
    if pc.Admitting? { NamesPlannedAdmitting(d, t, pc, x); }
    else if pc.Forwarding? || pc.Serving? { NamesPlannedLoop(d, t, pc, x); }
    else if pc.Sweeping? || pc.Teardown? { NamesPlannedClosing(d, t, pc, x); }
    else { NamesPlannedOther(d, t, pc, x); }
  }

  lemma NamesPlannedLoop(d: Data, t: Tid, pc: Pc, x: Input)
    requires NamesKnown(d, pc) && Plan(d, t, pc, x).Go? && (pc.Forwarding? || pc.Serving?)
    requires var op := Plan(d, t, pc, x).op; !op.Insert? && !op.Close?
    ensures NamesOk(d, Plan(d, t, pc, x).pc)
  {
  }

  lemma NamesPlannedAdmitting(d: Data, t: Tid, pc: Pc, x: Input)
    requires NamesKnown(d, pc) && Plan(d, t, pc, x).Go? && pc.Admitting?
    requires var op := Plan(d, t, pc, x).op; !op.Insert? && !op.Close?
    ensures NamesOk(d, Plan(d, t, pc, x).pc)
  {
  }

  lemma NamesPlannedClosing(d: Data, t: Tid, pc: Pc, x: Input)
    requires NamesKnown(d, pc) && Plan(d, t, pc, x).Go? && (pc.Sweeping? || pc.Teardown?)
    requires var op := Plan(d, t, pc, x).op; !op.Insert? && !op.Close?
    ensures NamesOk(d, Plan(d, t, pc, x).pc)
  {
  }

  /** The other goroutines name no sessions. */
  lemma NamesPlannedOther(d: Data, t: Tid, pc: Pc, x: Input)
    requires Plan(d, t, pc, x).Go?
    requires !(pc.Admitting? || pc.Forwarding? || pc.Serving? || pc.Sweeping? || pc.Teardown?)
    ensures var pc' := Plan(d, t, pc, x).pc; pc'.Teardown? ==> pc'.td.TdAdmission?
    ensures NamesOk(d, Plan(d, t, pc, x).pc)
  {
  }

  lemma NamesGained(d: Data, d': Data, t: Tid, pc: Pc, x: Input)
    requires NamesOk(d, pc) && Plan(d, t, pc, x).Go? && Persist(d, d')
    requires var op := Plan(d, t, pc, x).op; (op.Insert? || op.Close?) && SessionsApplied(d, d'.sess, op)
    ensures NamesOk(d', Plan(d, t, pc, x).pc)
  {
    if Plan(d, t, pc, x).op.Insert? { NamesInserted(d, d', t, pc, x); } else { NamesClosed(d, d', t, pc, x); }
  }

  lemma NamesInserted(d: Data, d': Data, t: Tid, pc: Pc, x: Input)
    requires Plan(d, t, pc, x).Go?
    requires var op := Plan(d, t, pc, x).op; op.Insert? && SessionsApplied(d, d'.sess, op)
    ensures NamesOk(d', Plan(d, t, pc, x).pc)
  {
  }

  lemma NamesClosed(d: Data, d': Data, t: Tid, pc: Pc, x: Input)
    requires NamesOk(d, pc) && Plan(d, t, pc, x).Go? && Persist(d, d')
    requires var op := Plan(d, t, pc, x).op; op.Close? && SessionsApplied(d, d'.sess, op)
    ensures NamesOk(d', Plan(d, t, pc, x).pc)
  {
    ClosingPcs(d, t, pc, x);
    NamesWait(d, d', pc, Plan(d, t, pc, x).pc, Plan(d, t, pc, x).op.sid);
  }

  /** Whoever closes a session goes on to wait for its reader, or names it no more. */
  predicate ClosingPc(pc: Pc, pc': Pc, sid: Sid) {
    && Mentions(pc') <= Mentions(pc)
    && (WaitsFor(pc').Some? ==> WaitsFor(pc') == Some(sid))
    && (pc'.Forwarding? ==> pc.Forwarding? && pc'.sid == pc.sid && pc'.key == pc.key)
    && (pc'.Admitting? ==> pc'.admit.ReplWait?)
  }

  lemma ClosingPcs(d: Data, t: Tid, pc: Pc, x: Input)
    requires Plan(d, t, pc, x).Go? && Plan(d, t, pc, x).op.Close?
    ensures ClosingPc(pc, Plan(d, t, pc, x).pc, Plan(d, t, pc, x).op.sid)
  {
  }

  lemma NamesWait(d: Data, d': Data, pc: Pc, pc': Pc, sid: Sid)
    requires NamesOk(d, pc) && Persist(d, d') && ClosingPc(pc, pc', sid) && Closed(d', sid)
    ensures NamesOk(d', pc')
  {
  }
}
