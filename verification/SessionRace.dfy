/** One session under every interleaving of its callers: `TryExpire`, `Close`,
    `RecordActivity`, `ForwardClient`, the backend reader and the context watcher,
    with `activityMu`, the atomic flag and `closeOnce` as separate steps. */
module SessionRace {
  import opened Basics
  import S = SessionState

  datatype Kind = Toucher | Forwarder | Expirer(cutoff: Time) | Closer

  /** The session's two goroutines, and any number of callers. */
  datatype Tid = Reader | Watcher | Caller(n: nat, kind: Kind)

  datatype Pc =
    | Begin
    | TouchLock                 // touch: before activityMu
    | Touch                     // ... and inside it
    | Touched(ok: bool)
    | ExpireLock                // TryExpire: before activityMu
    | Expire                    // ... and inside it
    | EnterOnce(marks: bool)    // closeOnce.Do, of closeResources or of TryExpire
    | MarkLock                  // inside closeOnce: before activityMu
    | Mark                      // ... and inside it
    | CancelContext
    | CloseSocket
    | LeaveOnce
    | CloseDone                 // the reader's deferred close(done)
    | Join                      // Close waits for the two goroutines
    | Returned(ok: bool)

  datatype Once = Fresh | Entered(runner: Tid) | Done

  /** A successful `TryExpire`. */
  datatype Expiry = Expiry(caller: Tid, activity: Time)

  datatype Shared = Shared(
    now: Time, closed: bool, lastActivity: Time,
    mu: Option<Tid>, once: Once,
    cancelled: bool, done: bool,
    closes: nat,                // how often the socket was closed
    expiries: seq<Expiry>)

  datatype State = State(d: Shared, pcs: map<Tid, Pc>)

  function PcOf(s: State, t: Tid): Pc {
    if t in s.pcs then s.pcs[t] else Begin
  }

  datatype Move = Blocked | Go(pc: Pc, d: Shared)

  /** Where a caller goes once `closeOnce.Do` has returned. */
  function AfterOnce(t: Tid): Pc {
    match t
    case Reader => CloseDone
    case Watcher => Returned(true)
    case Caller(_, kind) =>
      match kind
      case Toucher => Returned(false)
      case Forwarder => Returned(false)
      case Expirer(_) => Returned(true)
      case Closer => Join
  }

  /** `ok` is the success of a socket call, which a closed socket always fails. */
  function Start(d: Shared, t: Tid, ok: bool): Move {
    match t
    case Reader => Go(if ok && d.closes == 0 then TouchLock else EnterOnce(true), d)
    case Watcher => if d.cancelled then Go(EnterOnce(true), d) else if d.done then Go(Returned(true), d) else Blocked
    case Caller(_, kind) =>
      match kind
      case Toucher => Go(TouchLock, d)
      case Forwarder => Go(TouchLock, d)
      case Expirer(_) => Go(ExpireLock, d)
      case Closer => Go(EnterOnce(true), d)
  }

  function AfterTouch(d: Shared, t: Tid, touched: bool, ok: bool): Pc {
    if t.Reader? then (if touched && ok then Begin else EnterOnce(true))
    else if t.Caller? && t.kind.Forwarder? && touched then
      (if ok && d.closes == 0 then Returned(true) else if d.closed then Returned(false) else EnterOnce(true))
    else Returned(touched)
  }

  function TryExpire(d: Shared, t: Tid): Move {
    if t.Caller? && t.kind.Expirer? && !d.closed && d.lastActivity < t.kind.cutoff then
      Go(EnterOnce(false), d.(closed := true, mu := None, expiries := d.expiries + [Expiry(t, d.lastActivity)]))
    else Go(Returned(false), d.(mu := None))
  }

  function Lock(d: Shared, t: Tid, pc: Pc): Move {
    if d.mu.None? then Go(pc, d.(mu := Some(t))) else Blocked
  }

  function DoOnce(d: Shared, t: Tid, marks: bool): Move {
    match d.once
    case Fresh => Go(if marks then MarkLock else CancelContext, d.(once := Entered(t)))
    case Entered(_) => Blocked
    case Done => Go(AfterOnce(t), d)
  }

  /** The next step of `t` at `pc`; `joined` says that both goroutines have returned. */
  function Next(d: Shared, t: Tid, pc: Pc, ok: bool, joined: bool): Move {
    match pc
    case Begin => Start(d, t, ok)
    case TouchLock => Lock(d, t, Touch)
    case Touch =>
      Go(Touched(!d.closed), d.(mu := None, lastActivity := if d.closed then d.lastActivity else d.now))
    case Touched(touched) => Go(AfterTouch(d, t, touched, ok), d)
    case ExpireLock => Lock(d, t, Expire)
    case Expire => TryExpire(d, t)
    case EnterOnce(marks) => DoOnce(d, t, marks)
    case MarkLock => Lock(d, t, Mark)
    case Mark => Go(CancelContext, d.(closed := true, mu := None))
    case CancelContext => Go(CloseSocket, d.(cancelled := true))
    case CloseSocket => Go(LeaveOnce, d.(closes := d.closes + 1))
    case LeaveOnce => Go(AfterOnce(t), d.(once := Once.Done))
    case CloseDone => Go(Returned(true), d.(done := true))
    case Join => if joined then Go(Returned(true), d) else Blocked
    case Returned(_) => Blocked
  }

  predicate Joined(s: State) {
    PcOf(s, Reader).Returned? && PcOf(s, Watcher).Returned?
  }

  predicate ThreadStep(s: State, s': State, t: Tid, ok: bool) {
    var m := Next(s.d, t, PcOf(s, t), ok, Joined(s));
    m.Go? && s' == State(m.d, s.pcs[t := m.pc])
  }

  datatype Action = Run(t: Tid, ok: bool) | Elapse(span: Time) | CancelParent

  predicate Step(s: State, s': State, a: Action) {
    match a
    case Run(t, ok) => ThreadStep(s, s', t, ok)
    case Elapse(span) => s' == s.(d := s.d.(now := s.d.now + span))
    case CancelParent => s' == s.(d := s.d.(cancelled := true))
  }

  predicate Init(s: State) {
    s.pcs == map[] && s.d == Shared(s.d.now, false, s.d.now, None, Fresh, false, false, 0, [])
  }

  ghost predicate StepAt(run: seq<State>, acts: seq<Action>, k: nat)
    requires k < |acts| && |run| == |acts| + 1
  {
    Step(run[k], run[k + 1], acts[k])
  }

  ghost predicate IsRun(run: seq<State>, acts: seq<Action>) {
    && |run| == |acts| + 1 && Init(run[0])
    && forall k: nat {:trigger StepAt(run, acts, k)} | k < |acts| :: StepAt(run, acts, k)
  }

  // ---- The invariant -----------------------------------------------------------------

  predicate InMu(pc: Pc) {
    pc.Touch? || pc.Expire? || pc.Mark?
  }

  predicate InOnce(pc: Pc) {
    pc.MarkLock? || pc.Mark? || pc.CancelContext? || pc.CloseSocket? || pc.LeaveOnce?
  }

  /** The program counters of each kind of caller. */
  predicate Role(t: Tid, pc: Pc) {
    match pc
    case Begin => true
    case TouchLock => t.Reader? || (t.Caller? && (t.kind.Toucher? || t.kind.Forwarder?))
    case Touch => t.Reader? || (t.Caller? && (t.kind.Toucher? || t.kind.Forwarder?))
    case Touched(_) => t.Reader? || (t.Caller? && (t.kind.Toucher? || t.kind.Forwarder?))
    case ExpireLock => t.Caller? && t.kind.Expirer?
    case Expire => t.Caller? && t.kind.Expirer?
    case EnterOnce(marks) => !(t.Caller? && t.kind.Toucher?) && (t.Caller? && t.kind.Expirer? <==> !marks)
    case MarkLock => !(t.Caller? && (t.kind.Toucher? || t.kind.Expirer?))
    case Mark => !(t.Caller? && (t.kind.Toucher? || t.kind.Expirer?))
    case CloseDone => t.Reader?
    case Join => t.Caller? && t.kind.Closer?
    case Returned(_) => true
    case _ => !(t.Caller? && t.kind.Toucher?)
  }

  /** This `TryExpire` has decided to expire the session. */
  predicate Expired(t: Tid, pc: Pc) {
    t.Caller? && t.kind.Expirer? && !pc.Begin? && !pc.ExpireLock? && !pc.Expire? && pc != Returned(false)
  }

  /** The socket has been closed for whoever is here. */
  predicate PastClose(t: Tid, pc: Pc) {
    || pc.LeaveOnce? || pc.CloseDone? || pc.Join?
    || (pc.Returned? && (t.Reader? || (t.Caller? && (t.kind.Closer? || (t.kind.Expirer? && pc.ok)))))
  }

  predicate At(s: State, t: Tid) {
    var pc := PcOf(s, t);
    && Role(t, pc)
    && (InMu(pc) <==> s.d.mu == Some(t))
    && (InOnce(pc) <==> s.d.once == Entered(t))
    && (pc.CancelContext? || pc.CloseSocket? || pc.LeaveOnce? ==> s.d.closed)
    && (pc.CloseSocket? ==> s.d.cancelled)
    && (PastClose(t, pc) ==> s.d.closes == 1)
    && (pc.CloseDone? || pc.Join? ==> s.d.once.Done?)
    && (t.Reader? && pc.Returned? ==> s.d.done)
    && (s.d.done ==> PcOf(s, Reader).Returned?)
    && (Expired(t, pc) <==> s.d.expiries != [] && s.d.expiries[0].caller == t)
  }

  /** The socket is closed at most once, after the flag is set; a session is expired
      at most once, for an activity before the cutoff that is then its last. */
  predicate SharedOk(s: State) {
    var d := s.d;
    && d.closes == (if d.once.Done? || (d.once.Entered? && PcOf(s, d.once.runner).LeaveOnce?) then 1 else 0)
    && (d.closes > 0 ==> d.closed && d.cancelled)
    && d.lastActivity <= d.now
    && |d.expiries| <= 1
    && (d.expiries != [] ==>
          && d.closed && d.lastActivity == d.expiries[0].activity
          && d.expiries[0].caller.Caller? && d.expiries[0].caller.kind.Expirer?
          && d.expiries[0].activity < d.expiries[0].caller.kind.cutoff)
  }

  ghost predicate Inv(s: State) {
    SharedOk(s) && forall t {:trigger At(s, t)} :: At(s, t)
  }

  /** What a step of `t` does to the shared state. */
  predicate Effect(d: Shared, d': Shared, t: Tid, pc: Pc, pc': Pc) {
    && d'.mu == (if InMu(pc') then Some(t) else if InMu(pc) then None else d.mu)
    && (InMu(pc') && !InMu(pc) ==> d.mu.None?)
    && d'.once == (if InOnce(pc') then Entered(t) else if InOnce(pc) then Once.Done else d.once)
    && (InOnce(pc') && !InOnce(pc) ==> d.once.Fresh?)
    && d'.now == d.now && (d.done ==> d'.done)
    && d'.closed == (d.closed || pc.Mark? || d'.expiries != d.expiries)
    && d'.cancelled == (d.cancelled || pc.CancelContext?)
    && d'.lastActivity == (if pc.Touch? && !d.closed then d.now else d.lastActivity)
    && d'.closes == d.closes + (if pc.CloseSocket? then 1 else 0)
    && (d'.done && !d.done ==> pc.CloseDone? && pc'.Returned?)
    && (d'.expiries == d.expiries
        || (pc.Expire? && !d.closed && d'.expiries == d.expiries + [Expiry(t, d.lastActivity)]
            && t.Caller? && t.kind.Expirer? && d.lastActivity < t.kind.cutoff))
    && (pc.CloseSocket? <==> pc'.LeaveOnce?) && (pc.LeaveOnce? <==> InOnce(pc) && !InOnce(pc'))
  }

  lemma Effects(d: Shared, t: Tid, pc: Pc, ok: bool, joined: bool)
    requires Next(d, t, pc, ok, joined).Go? && Role(t, pc)
    requires (InMu(pc) ==> d.mu == Some(t)) && (InOnce(pc) ==> d.once == Entered(t))
    ensures Effect(d, Next(d, t, pc, ok, joined).d, t, pc, Next(d, t, pc, ok, joined).pc)
  {
  }

  lemma SharedKept(s: State, s': State, t: Tid, pc': Pc)
    requires SharedOk(s) && At(s, t) && s'.pcs == s.pcs[t := pc'] && Effect(s.d, s'.d, t, PcOf(s, t), pc')
    requires s.d.once.Entered? ==> At(s, s.d.once.runner)
    ensures SharedOk(s')
  {
  }

  /** How a caller's program counter moves with the shared state. */
  predicate Progress(d: Shared, d': Shared, t: Tid, pc: Pc, pc': Pc) {
    && Role(t, pc')
    && (pc'.CancelContext? ==> pc.Mark? || (pc.EnterOnce? && !pc.marks))
    && (pc'.CloseSocket? ==> pc.CancelContext?)
    && (PastClose(t, pc') ==> pc'.LeaveOnce? || PastClose(t, pc) || d.once.Done?)
    && (pc'.CloseDone? || pc'.Join? ==> d'.once.Done?)
    && (t.Reader? && pc'.Returned? ==> d'.done)
    && (Expired(t, pc') <==> Expired(t, pc) || d'.expiries != d.expiries)
    && !pc.Returned?
  }

  lemma Progresses(d: Shared, t: Tid, pc: Pc, ok: bool, joined: bool)
    requires Next(d, t, pc, ok, joined).Go? && Role(t, pc)
    ensures Progress(d, Next(d, t, pc, ok, joined).d, t, pc, Next(d, t, pc, ok, joined).pc)
  {
  }

  lemma OwnKept(s: State, s': State, t: Tid, pc': Pc)
    requires SharedOk(s) && SharedOk(s') && At(s, t) && At(s, Reader) && s'.pcs == s.pcs[t := pc']
    requires Effect(s.d, s'.d, t, PcOf(s, t), pc') && Progress(s.d, s'.d, t, PcOf(s, t), pc')
    ensures At(s', t)
  {
  }

  lemma OtherKept(s: State, s': State, t: Tid, pc': Pc, u: Tid)
    requires SharedOk(s) && SharedOk(s') && At(s, t) && At(s, u) && At(s, Reader) && t != u
    requires s'.pcs == s.pcs[t := pc'] && Effect(s.d, s'.d, t, PcOf(s, t), pc')
    requires PcOf(s, t).Returned? ==> pc'.Returned?
    ensures At(s', u)
  {
  }

  lemma StepInv(s: State, s': State, a: Action)
    requires Inv(s) && Step(s, s', a)
    ensures Inv(s')
  {
    assert At(s, Reader);
    match a
    case Run(t, ok) =>
      assert At(s, t);
      if s.d.once.Entered? { assert At(s, s.d.once.runner); }
      Effects(s.d, t, PcOf(s, t), ok, Joined(s));
      Progresses(s.d, t, PcOf(s, t), ok, Joined(s));
      SharedKept(s, s', t, Next(s.d, t, PcOf(s, t), ok, Joined(s)).pc);
      forall u {:trigger At(s', u)} ensures At(s', u) {
        assert At(s, u);
        var pc' := Next(s.d, t, PcOf(s, t), ok, Joined(s)).pc;
        if u == t { OwnKept(s, s', t, pc'); } else { OtherKept(s, s', t, pc', u); }
      }
    case Elapse(_) => forall u {:trigger At(s', u)} ensures At(s', u) { assert At(s, u); }
    case CancelParent => forall u {:trigger At(s', u)} ensures At(s', u) { assert At(s, u); }
  }

  lemma {:induction false} RunInv(run: seq<State>, acts: seq<Action>, k: nat)
    requires IsRun(run, acts) && k < |run|
    ensures Inv(run[k])
  {
    if k > 0 {
      RunInv(run, acts, k - 1);
      assert StepAt(run, acts, k - 1);
      StepInv(run[k - 1], run[k], acts[k - 1]);
    }
  }

  // ---- What every run keeps -----------------------------------------------------------------

  /** The session was closed on behalf of `t`: its `Close`, its successful
      `TryExpire`, or the exit of the reader. */
  predicate ClosedFor(t: Tid, pc: Pc) {
    pc.Returned? && (t.Reader? || (t.Caller? && (t.kind.Closer? || (t.kind.Expirer? && pc.ok))))
  }

  /** The socket is never closed twice, never before the session is marked closed,
      and it has been closed once whoever asked for it returns. */
  lemma SocketClosedOnce(run: seq<State>, acts: seq<Action>, k: nat, t: Tid)
    requires IsRun(run, acts) && k < |run|
    ensures run[k].d.closes <= 1
    ensures run[k].d.closes == 1 ==> run[k].d.closed
    ensures ClosedFor(t, PcOf(run[k], t)) ==> run[k].d.closes == 1
  {
    RunInv(run, acts, k);
    assert At(run[k], t);
  }

  lemma JoinedAt(run: seq<State>, acts: seq<Action>, k: nat, t: Tid)
    requires IsRun(run, acts) && k < |acts| && t.Caller? && t.kind.Closer?
    requires PcOf(run[k + 1], t).Returned?
    ensures PcOf(run[k], t).Returned? || Joined(run[k])
    ensures Joined(run[k]) ==> Joined(run[k + 1])
  {
    RunInv(run, acts, k);
    assert At(run[k], t) && StepAt(run, acts, k);
  }

  /** `Close` returns only once the reader and the watcher have. */
  lemma {:induction false} CloseJoins(run: seq<State>, acts: seq<Action>, k: nat, t: Tid)
    requires IsRun(run, acts) && k < |run| && t.Caller? && t.kind.Closer? && PcOf(run[k], t).Returned?
    ensures Joined(run[k]) && run[k].d.done
  {
    RunInv(run, acts, k);
    assert At(run[k], Reader);
    if k > 0 {
      JoinedAt(run, acts, k - 1, t);
      if !Joined(run[k - 1]) { CloseJoins(run, acts, k - 1, t); }
    }
  }

  lemma ClosedAt(run: seq<State>, acts: seq<Action>, k: nat)
    requires IsRun(run, acts) && k < |acts| && run[k].d.closed
    ensures run[k + 1].d.closed && run[k + 1].d.lastActivity == run[k].d.lastActivity
    ensures run[k].d.closes <= run[k + 1].d.closes
  {
    assert StepAt(run, acts, k);
  }

  /** `closed` is terminal, and from then on the last activity never changes. */
  lemma {:induction false} ClosedIsFinal(run: seq<State>, acts: seq<Action>, i: nat, j: nat)
    requires IsRun(run, acts) && i <= j < |run| && run[i].d.closed
    ensures run[j].d.closed && run[j].d.lastActivity == run[i].d.lastActivity
  {
    if i < j {
      ClosedIsFinal(run, acts, i, j - 1);
      ClosedAt(run, acts, j - 1);
    }
  }

  /** At most one `TryExpire` succeeds, and only for an activity before its cutoff
      that stays the session's last. */
  lemma ExpiresOnce(run: seq<State>, acts: seq<Action>, k: nat, t: Tid, u: Tid)
    requires IsRun(run, acts) && k < |run|
    requires t.Caller? && t.kind.Expirer? && PcOf(run[k], t) == Returned(true)
    ensures run[k].d.closed && run[k].d.lastActivity < t.kind.cutoff
    ensures u.Caller? && u.kind.Expirer? && PcOf(run[k], u) == Returned(true) ==> u == t
  {
    RunInv(run, acts, k);
    assert At(run[k], t) && At(run[k], u);
  }

  /** Step `k` is the one in which the call of `t` looks at the flag, and answers `ok`. */
  predicate DecidesAt(run: seq<State>, acts: seq<Action>, k: nat, t: Tid, ok: bool)
    requires k < |acts| && |run| == |acts| + 1
  {
    && acts[k].Run? && acts[k].t == t && PcOf(run[k], t).Touch?
    && ok == !run[k].d.closed
    && run[k + 1].d.closed == run[k].d.closed
    && run[k + 1].d.lastActivity == if ok then run[k].d.now else run[k].d.lastActivity
  }

  /** What a call of `RecordActivity` has answered was decided at one moment within it. */
  lemma {:induction false} TouchIsDecided(run: seq<State>, acts: seq<Action>, i: nat, j: nat, t: Tid) returns (k: nat)
    requires IsRun(run, acts) && i <= j < |run| && t.Caller? && t.kind.Toucher?
    requires PcOf(run[i], t).Begin? && (PcOf(run[j], t).Touched? || PcOf(run[j], t).Returned?)
    ensures i <= k < j && DecidesAt(run, acts, k, t, PcOf(run[j], t).ok)
  {
    RunInv(run, acts, j - 1);
    assert At(run[j - 1], t) && StepAt(run, acts, j - 1);
    if PcOf(run[j - 1], t).Touch? { k := j - 1; } else { k := TouchIsDecided(run, acts, i, j - 1, t); }
  }

  /** A whole call of `RecordActivity`, from `run[i]` to its return in `run[j]`: it returns
      true exactly if the session was open at the moment `k` of the call, and then that
      moment is the session's activity.  So it fails on a session that was closed before
      the call, and succeeds on one that is still open after it. */
  lemma TouchSucceedsWhileOpen(run: seq<State>, acts: seq<Action>, i: nat, j: nat, t: Tid) returns (k: nat)
    requires IsRun(run, acts) && i <= j < |run| && t.Caller? && t.kind.Toucher?
    requires PcOf(run[i], t).Begin? && PcOf(run[j], t).Returned?
    ensures i <= k < j && DecidesAt(run, acts, k, t, PcOf(run[j], t).ok)
    ensures PcOf(run[j], t).ok ==> forall m | i <= m <= k :: !run[m].d.closed
    ensures !PcOf(run[j], t).ok ==> forall m | k <= m <= j :: run[m].d.closed
  {
    k := TouchIsDecided(run, acts, i, j, t);
    forall m | i <= m <= k ensures run[m].d.closed ==> run[k].d.closed {
      if run[m].d.closed { ClosedIsFinal(run, acts, m, k); }
    }
    forall m | k <= m <= j ensures run[k].d.closed ==> run[m].d.closed {
      if run[k].d.closed { ClosedIsFinal(run, acts, k, m); }
    }
  }

  // ---- The session as the lifecycle sees it ------------------------------------------------

  function Abs(d: Shared): S.State {
    S.State([], d.closed, d.done, d.lastActivity, [], [])
  }

  /** The lifecycle machine takes a session's sections as single steps: a touch, a
      close, an expiry, and the exit of the reader, which follows the close. */
  predicate Refines(s: State, s': State) {
    var y, y' := Abs(s.d), Abs(s'.d);
    || y' == y
    || y' == S.Touch(y, s.d.now)
    || y' == S.Close(y)
    || (y' == y.(done := true) && y.closed)
  }

  /** Every step is one of those, and a successful `TryExpire` is a close of a
      session that the abstract test calls expirable. */
  lemma StepRefines(run: seq<State>, acts: seq<Action>, k: nat, tick: Time, idle: Time)
    requires IsRun(run, acts) && k < |acts|
    ensures Refines(run[k], run[k + 1])
    ensures acts[k].Run? && PcOf(run[k], acts[k].t).Expire? ==>
      acts[k].t.Caller? && acts[k].t.kind.Expirer? && (tick == idle + acts[k].t.kind.cutoff ==>
      (PcOf(run[k + 1], acts[k].t) == EnterOnce(false) <==> S.Expirable(Abs(run[k].d), tick, idle)))
  {
    RunInv(run, acts, k);
    assert StepAt(run, acts, k);
    if acts[k].Run? { assert At(run[k], acts[k].t); }
  }

  // ---- Lock order -------------------------------------------------------------------------

  predicate CanStep(s: State, t: Tid) {
    Next(s.d, t, PcOf(s, t), false, Joined(s)).Go?
  }

  /** `t` has ended, or is the context watcher of a session nobody has closed. */
  predicate Resting(s: State, t: Tid) {
    PcOf(s, t).Returned? || (t.Watcher? && PcOf(s, t).Begin? && !s.d.cancelled && !s.d.done)
  }

  /** Whoever waits for `activityMu` waits for one that runs, since `closeOnce` is
      only ever taken before it. */
  lemma MuOwnerRuns(s: State)
    requires Inv(s) && s.d.mu.Some?
    ensures CanStep(s, s.d.mu.value)
  {
    assert At(s, s.d.mu.value);
  }

  lemma OnceOwnerRuns(s: State)
    requires Inv(s) && s.d.once.Entered?
    ensures CanStep(s, s.d.once.runner) || (s.d.mu.Some? && CanStep(s, s.d.mu.value))
  {
    assert At(s, s.d.once.runner);
    if s.d.mu.Some? { MuOwnerRuns(s); }
  }

  /** `t` waits, directly or behind another, for `u`: the owner of `activityMu`, the
      caller inside `closeOnce`, or one of the goroutines that `Close` joins. */
  predicate Delays(s: State, t: Tid, u: Tid) {
    || s.d.mu == Some(u)
    || s.d.once == Entered(u)
    || (PcOf(s, t).Join? && !u.Caller?)
  }

  /** From every reachable state, whoever has not returned can step or is delayed
      by someone who can. */
  lemma NeverDeadlocks(run: seq<State>, acts: seq<Action>, k: nat, t: Tid)
    requires IsRun(run, acts) && k < |run| && !Resting(run[k], t) && !CanStep(run[k], t)
    ensures exists u :: Delays(run[k], t, u) && CanStep(run[k], u)
  {
    RunInv(run, acts, k);
    var s := run[k];
    if s.d.mu.Some? { MuOwnerRuns(s); assert Delays(s, t, s.d.mu.value); }
    else if s.d.once.Entered? { OnceOwnerRuns(s); assert Delays(s, t, s.d.once.runner); }
    else { JoinIsShort(s, t); assert Delays(s, t, Reader) && Delays(s, t, Watcher); }
  }

  /** `Close` waits for the reader, which the closed socket has ended, and for the
      context watcher, which it has cancelled. */
  lemma JoinIsShort(s: State, t: Tid)
    requires Inv(s) && s.d.mu.None? && !s.d.once.Entered? && !CanStep(s, t) && !Resting(s, t)
    ensures PcOf(s, t).Join? && (CanStep(s, Reader) || CanStep(s, Watcher))
  {
    assert At(s, t) && At(s, Reader) && At(s, Watcher);
  }
}
