/** The proxy as an interleaving of its goroutines.  A step is one critical
    section, one lock acquisition or release, or the end of an external call;
    answers of the panel, verdicts of the detector and the probe, the success of
    socket writes, and time are arbitrary inputs. */
module Lifecycle {
  import opened Basics
  import P = ProxyState
  import S = SessionState

  // ---- Goroutines and their program counters -----------------------------

  datatype Tid =
    | Loop                    // Serve: the packet loop, then shutdown
    | Monitor
    | Sweeper
    | Startup(gen: nat)
    | Watcher(sid: Sid)
    | Callback(id: TimerId)   // a fired auto-stop timer

  datatype ServePc = InitStatus | InitStart | InitLaunch | Idle | WaitTimers | WaitGroup | Returned

  /** Which of its three calls a `forwardOrQueue` was made from. */
  datatype Site = Fast | Retry | Final(ready: bool)

  datatype ForwardPc = FwdLock | FwdCheck | FwdStart | FwdTouch | FwdWrite | FwdDone(ok: bool)

  /** `handleClientPacket` from `admissionMu` on. */
  datatype AdmitPc =
    | AdmLock
    | AdmGet
    | ReplRemove(sid: Sid)
    | ReplClose(sid: Sid)
    | ReplWait(sid: Sid)
    | ReplQueue(sid: Sid)
    | Decide
    | Create(ready: bool)
    | CancelStop(sid: Sid, ready: bool)
    | AdmStart
    | AdmLeave

  /** Why a teardown closes every session. */
  datatype Why = Shutdown | Failed(gen: nat, permanent: bool) | Lost(readyGen: nat)

  /** `shutdown`, `failStartup` and `closeBackendGate`. */
  datatype TeardownPc =
    | TdAdmission
    | TdForwarding
    | TdMu
    | TdTake
    | TdClose(todo: set<Sid>)
    | TdWait(sid: Sid, todo: set<Sid>)
    | TdLeave

  /** What follows `markBackendNotRunning`. */
  datatype After = ToStart | ToTick(sent: bool) | ToForget(gen: nat, attempt: nat)

  datatype EnsurePc =
    | Poll(sent: bool)
    | TickWait(sent: bool)
    | SendStart
    | StartInFlight
    | Adopt
    | AwaitReady
    | Settle
    | Reprobe
    | Errored(permanent: bool)

  /** `openStartupGate`, then `finishStartup`. */
  datatype OpenPc =
    | OpenAdmission
    | OpenForwarding
    | OpenMu
    | Flush(pos: map<Sid, nat>)
    | OpenLen
    | OpenSchedule
    | OpenLeave
    | Finish
    | Retrigger

  datatype Failures = Failures(gen: nat, count: nat)

  const NO_FAILURES := Failures(0, 0)

  datatype Verdict = Healthy | Inconclusive | Confirmed

  datatype MonitorPc =
    | MonTick(failures: Failures)
    | MonProbe(gen: nat, failures: Failures)
    | MonCheck(gen: nat, failures: Failures, verdict: Verdict)

  datatype SweepPc =
    | SweepTick
    | SweepPending(tick: Time)
    | Refresh(tick: Time, pending: set<Sid>)
    | ExpireLock(tick: Time)
    | Expiring(tick: Time, expired: set<Sid>)
    | ExpClose(todo: set<Sid>, any: bool, count: nat)
    | ExpWait(sid: Sid, todo: set<Sid>, any: bool, count: nat)
    | SweepQueues(count: nat)
    | SweepSchedule

  datatype WatchPc = Watch | WatchRemove | WatchQueue(last: bool) | WatchSchedule

  /** `runAutoStopAttempt`. */
  datatype StopPc = CbAdmission | CbLen | CbMu | StopInFlight | CbForget | CbRetry | CbLeave | CbExit

  datatype Pc =
    | Serving(serve: ServePc)
    | Forwarding(fwd: ForwardPc, key: Key, sid: Sid, d: Datagram, site: Site)
    | Admitting(admit: AdmitPc, key: Key, d: Datagram)
    | Teardown(why: Why, td: TeardownPc)
    | Marking(after: After, locked: bool)
    | Ensuring(ensure: EnsurePc)
    | Opening(open: OpenPc)
    | Monitoring(mon: MonitorPc)
    | Sweeping(sweep: SweepPc)
    | Watching(watch: WatchPc)
    | AutoStop(stop: StopPc, gen: nat, attempt: nat)
    | Exited

  // ---- Locks ---------------------------------------------------------------

  /** The program points between `admissionMu.Lock` and its release. */
  predicate HoldsAdmission(pc: Pc) {
    match pc
    case Forwarding(_, _, _, _, site) => !site.Fast?
    case Admitting(at, _, _) => !at.AdmLock?
    case Teardown(_, at) => !at.TdAdmission?
    case Marking(after, _) => after.ToForget?
    case Opening(at) => !(at.OpenAdmission? || at.Finish? || at.Retrigger?)
    case AutoStop(at, _, _) => !(at.CbAdmission? || at.CbExit?)
    case _ => false
  }

  /** The program points between `forwardingMu.Lock` and its release. */
  predicate HoldsWriter(pc: Pc) {
    match pc
    case Teardown(_, at) => !(at.TdAdmission? || at.TdForwarding?)
    case Marking(_, locked) => locked
    case Opening(at) => !(at.OpenAdmission? || at.OpenForwarding? || at.Finish? || at.Retrigger?)
    case _ => false
  }

  /** The program points between `forwardingMu.RLock` and its release. */
  predicate HoldsReader(pc: Pc) {
    pc.Forwarding? && !pc.fwd.FwdLock?
  }

  /** `Proxy.mu` is held across steps only by the opening flush. */
  predicate HoldsMu(pc: Pc) {
    pc.Opening? && pc.open.Flush?
  }

  /** `Store.mu` is held across steps only by `ExpireIdle`. */
  predicate HoldsStoreMu(pc: Pc) {
    pc.Sweeping? && pc.sweep.Expiring?
  }

  /** The steps that are a section under `Proxy.mu`. */
  predicate NeedsMu(pc: Pc) {
    match pc
    case Serving(at) => at.InitStart?
    case Forwarding(at, _, _, _, _) => at.FwdCheck? || at.FwdStart?
    case Admitting(at, _, _) => at.ReplQueue? || at.Decide? || at.CancelStop? || at.AdmStart?
    case Teardown(_, at) => at.TdMu?
    case Marking(_, locked) => locked
    case Ensuring(at) => at.Adopt?
    case Opening(at) => at.OpenMu? || at.OpenSchedule? || at.Finish? || at.Retrigger?
    case Monitoring(at) => !at.MonProbe?
    case Sweeping(at) => at.SweepPending? || at.SweepQueues? || at.SweepSchedule?
    case Watching(at) => at.WatchQueue? || at.WatchSchedule?
    case AutoStop(at, _, _) => at.CbMu? || at.CbForget? || at.CbRetry?
    case Exited => false
  }

  /** The steps that are a section under `Store.mu`. */
  predicate NeedsStoreMu(pc: Pc) {
    match pc
    case Serving(at) => at.Idle?
    case Admitting(at, _, _) => at.AdmGet? || at.ReplRemove? || at.Create?
    case Teardown(_, at) => at.TdTake?
    case Opening(at) => at.OpenLen?
    case Sweeping(at) => at.ExpireLock?
    case Watching(at) => at.WatchRemove?
    case AutoStop(at, _, _) => at.CbLen?
    case _ => false
  }

  datatype Locks = Locks(
    admission: Option<Tid>,              // admissionMu
    writer: Option<Tid>, reader: bool,   // forwardingMu; only the packet loop reads
    mu: Option<Tid>,
    storeMu: Option<Tid>)

  /** The locks that moving from `pc` to `pc'` takes, or needs for the step, are free. */
  predicate Free(l: Locks, pc: Pc, pc': Pc) {
    && (HoldsAdmission(pc') && !HoldsAdmission(pc) ==> l.admission.None?)
    && (HoldsWriter(pc') && !HoldsWriter(pc) ==> l.writer.None? && !l.reader)
    && (HoldsReader(pc') && !HoldsReader(pc) ==> l.writer.None?)
    && (NeedsMu(pc) ==> l.mu.None?)
    && (NeedsStoreMu(pc) ==> l.storeMu.None?)
  }

  function Owner(before: Option<Tid>, t: Tid, held: bool, holds: bool): Option<Tid> {
    if holds == held then before else if holds then Some(t) else None
  }

  function LocksAfter(l: Locks, t: Tid, pc: Pc, pc': Pc): Locks {
    Locks(Owner(l.admission, t, HoldsAdmission(pc), HoldsAdmission(pc')),
          Owner(l.writer, t, HoldsWriter(pc), HoldsWriter(pc')),
          if HoldsReader(pc) == HoldsReader(pc') then l.reader else HoldsReader(pc'),
          Owner(l.mu, t, HoldsMu(pc), HoldsMu(pc')),
          Owner(l.storeMu, t, HoldsStoreMu(pc), HoldsStoreMu(pc')))
  }

  // ---- The shared data and its histories -----------------------------------

  datatype Remover = ByReplacement | ByWatcher | BySweep | ByCloseAll

  /** A Stop request: when its timer was armed and when it was sent. */
  datatype StopRecord = StopRecord(gen: nat, attempt: nat, armedAt: Time, sentAt: Time)

  /** One iteration of the monitor: the generation read before the probe, and
      what the iteration concluded. */
  datatype Observation = GateClosed | Stale(gen: nat) | Probed(gen: nat, verdict: Verdict)

  datatype History = History(
    arrived: nat,                        // datagrams received
    removed: map<Sid, Remover>,          // who took each session out of the store
    callbacks: map<TimerId, P.Alarm>,    // running timer callbacks
    stops: seq<StopRecord>,              // Stop requests, in order
    stopAccepted: bool,                  // a Stop was accepted since the gate last opened
    starts: nat,                         // Start requests
    observations: seq<Observation>,      // the monitor's iterations
    wake: bool,                          // a wake packet or Running observation since the last loss
    everWake: bool,                      // ... since the beginning
    permanentFailures: seq<Time>)        // when permanent startup failures ended

  datatype Data = Data(
    o: Options, now: Time, cancelled: bool,
    p: P.State, store: map<Key, Sid>, sess: map<Sid, S.State>, h: History)

  /** What a step does to the shared data. */
  datatype Op =
    | Nop
    | AdoptRunning                          // Serve finds the backend running
    | Launch
    | CancelContext
    | Arrived
    | TryStart                              // startServer
    | Enqueue(sid: Sid, d: Datagram)
    | Touch(sid: Sid)
    | Forward(sid: Sid, d: Datagram)
    | Close(sid: Sid)
    | FinishReader(sid: Sid)
    | Unstore(key: Key, sid: Sid, who: Remover)
    | Expire(key: Key, sid: Sid)
    | Insert(key: Key, sid: Sid)
    | TakeAll
    | RemoveQueue(sid: Sid)
    | RemoveQueues
    | Detected
    | CancelTimer(sid: Sid)                 // cancelAutoStop, then watchSession
    | ScheduleTimer
    | Fire(id: TimerId)
    | Teared(why: Why)                      // the section under mu of a teardown
    | MarkStopped(accepted: bool)           // markBackendNotRunning
    | StartSent
    | ObserveRunning
    | SetRunning
    | FlushWrite(sid: Sid, d: Datagram)
    | OpenGate
    | Complete(gen: nat)
    | Observe(seen: Observation)
    | StopSent(record: StopRecord)
    | StopAccepted
    | ForgetTimer(gen: nat)
    | RetryStop(gen: nat, attempt: nat)
    | EndCallback(id: TimerId)
    | Elapse(span: Time)

  /** What a step does to the part of the state that `Proxy.mu` guards. */
  ghost predicate ProxyApplied(d: Data, p': P.State, op: Op) {
    match op
    case AdoptRunning => p' == P.AdoptRunning(d.p, d.o.probing)
    case TryStart => p' == if P.CanStart(d.p, d.now) then P.BeginStartup(d.p) else d.p
    case Enqueue(sid, g) => p' == d.p.(buffer := P.Enqueue(d.p.buffer, sid, g, d.o))
    case RemoveQueue(sid) => p' == d.p.(buffer := P.RemoveQueue(d.p.buffer, sid))
    case RemoveQueues => p' == d.p.(buffer := P.RemoveQueues(d.p.buffer, DoneSessions(d)))
    case CancelTimer(_) => p' == d.p.(timers := P.NextGeneration(d.p.timers))
    case ScheduleTimer => p' == P.ScheduleAutoStop(d.p, d.now, d.o)
    case Fire(id) => p' == d.p.(timers := P.Fire(d.p.timers, id))
    case Teared(why) =>
      (match why
       case Shutdown => p' == P.Shutdown(d.p)
       case Lost(_) => p' == P.CloseGate(d.p)
       case Failed(gen, permanent) => p' == P.FailStartup(d.p, gen, permanent, d.now, d.o.failureCooldown))
    case MarkStopped(_) => p' == P.MarkNotRunning(d.p)
    case ObserveRunning => p' == d.p.(running := true)
    case SetRunning => p' == d.p.(running := true)
    case OpenGate => p' == P.OpenGate(d.p)
    case Complete(gen) => p' == P.CompleteStartup(d.p, gen)
    case ForgetTimer(gen) => p' == d.p.(timers := P.Forget(d.p.timers, gen))
    case RetryStop(gen, attempt) => p' == P.RetryStop(d.p, gen, attempt, d.now, d.o)
    case EndCallback(_) => p' == d.p.(timers := d.p.timers.(waiting := d.p.timers.waiting - 1))
    case _ => p' == d.p
  }

  predicate StoreApplied(d: Data, store': map<Key, Sid>, removed': map<Sid, Remover>, op: Op) {
    match op
    case Unstore(key, sid, who) => store' == d.store - {key} && removed' == d.h.removed[sid := who]
    case Expire(key, sid) => store' == d.store - {key} && removed' == d.h.removed[sid := BySweep]
    case Insert(key, sid) => store' == d.store[key := sid] && removed' == d.h.removed
    case TakeAll =>
      store' == map[] && removed' == d.h.removed + map sid | sid in d.store.Values :: ByCloseAll
    case _ => store' == d.store && removed' == d.h.removed
  }

  predicate SessionsApplied(d: Data, sess': map<Sid, S.State>, op: Op) {
    match op
    case Enqueue(sid, g) =>
      && sid in d.sess
      && var y := S.Touch(d.sess[sid], d.now);
      sess' == d.sess[sid := if P.Accepts(d.p.buffer, sid, g, d.o) then S.Accept(y, g) else y]
    case Touch(sid) => sid in d.sess && sess' == d.sess[sid := S.Touch(d.sess[sid], d.now)]
    case Forward(sid, g) => sid in d.sess && sess' == d.sess[sid := S.Write(S.Accept(d.sess[sid], g), g)]
    case Close(sid) => sid in d.sess && sess' == d.sess[sid := S.Close(d.sess[sid])]
    case FinishReader(sid) => sid in d.sess && sess' == d.sess[sid := d.sess[sid].(done := true)]
    case Expire(key, sid) => sid in d.sess && sess' == d.sess[sid := S.Close(d.sess[sid])]
    case Insert(key, sid) => sess' == d.sess[sid := S.New(key, d.now)]
    case FlushWrite(sid, g) => sid in d.sess && sess' == d.sess[sid := S.Write(S.Touch(d.sess[sid], d.now), g)]
    case _ => sess' == d.sess
  }

  predicate TimerHistoryApplied(d: Data, h': History, op: Op) {
    && (op.Fire? ==> op.id in d.p.timers.alarms)
    && h'.callbacks == (if op.Fire? then d.h.callbacks[op.id := d.p.timers.alarms[op.id]]
                        else if op.EndCallback? then d.h.callbacks - {op.id} else d.h.callbacks)
    && h'.stops == (if op.StopSent? then d.h.stops + [op.record] else d.h.stops)
    && h'.stopAccepted == ((d.h.stopAccepted && !op.OpenGate?) || op.StopAccepted?)
  }

  /** A startup failure that is not stale. */
  predicate Fails(d: Data, op: Op) {
    op.Teared? && op.why.Failed? && op.why.gen == d.p.startupGen
  }

  predicate WakeHistoryApplied(d: Data, h': History, op: Op) {
    var woken := op.AdoptRunning? || op.Detected? || op.ObserveRunning?;
    var lost := Fails(d, op) || (op.Teared? && op.why.Lost?) || (op.MarkStopped? && op.accepted);
    && h'.wake == ((d.h.wake && !lost) || woken)
    && h'.everWake == (d.h.everWake || woken)
    && h'.starts == d.h.starts + (if op.StartSent? then 1 else 0)
    && h'.permanentFailures ==
         if Fails(d, op) && op.why.permanent then d.h.permanentFailures + [d.now] else d.h.permanentFailures
  }

  predicate LogApplied(d: Data, h': History, op: Op) {
    && h'.arrived == d.h.arrived + (if op.Arrived? then 1 else 0)
    && h'.observations == if op.Observe? then d.h.observations + [op.seen] else d.h.observations
  }

  function DoneSessions(d: Data): set<Sid> {
    set sid | sid in d.sess && d.sess[sid].done
  }

  /** `d'` is the data after `op`. */
  ghost predicate Applied(d: Data, d': Data, op: Op) {
    && d'.o == d.o
    && d'.now == (if op.Elapse? then d.now + op.span else d.now)
    && d'.cancelled == (d.cancelled || op.CancelContext?)
    && ProxyApplied(d, d'.p, op)
    && StoreApplied(d, d'.store, d'.h.removed, op)
    && SessionsApplied(d, d'.sess, op)
    && TimerHistoryApplied(d, d'.h, op) && WakeHistoryApplied(d, d'.h, op) && LogApplied(d, d'.h, op)
  }

  // ---- What each goroutine does next ---------------------------------------

  /** What the outside world contributes to a step; a step reads the fields it
      needs.  `ok` is the success of a call, or false when a context is done. */
  datatype Input = Input(
    ok: bool, permanent: bool, panel: PanelState, verdict: Verdict, wake: bool,
    key: Key, payload: seq<bv8>, sid: Sid, tick: Time)

  /** The next program counter and effect; `Blocked` where the step waits for
      something other than a lock, or where the input does not fit. */
  datatype Move = Blocked | Go(pc: Pc, op: Op)

  function Await(enabled: bool, pc: Pc): Move {
    if enabled then Go(pc, Nop) else Blocked
  }

  predicate Stored(d: Data, key: Key, sid: Sid) {
    key in d.store && d.store[key] == sid
  }

  predicate IsDone(d: Data, sid: Sid) {
    sid in d.sess && d.sess[sid].done
  }

  function PlanServe(d: Data, at: ServePc, x: Input): Move {
    match at
    case InitStatus =>
      if x.ok && x.panel.Running? then Go(Serving(if d.o.probing then InitStart else InitLaunch), AdoptRunning)
      else Go(Serving(InitLaunch), Nop)
    case InitStart => Go(Serving(InitLaunch), TryStart)
    case InitLaunch => Go(Serving(Idle), Launch)
    case Idle =>
      if !x.ok then Go(Teardown(Shutdown, TdAdmission), CancelContext)
      else if x.payload == [] || d.o.maxPacketSize < |x.payload| then Go(Serving(Idle), Nop)
      else
        var g := Datagram(d.h.arrived, x.payload);
        Go(if x.key in d.store then Forwarding(FwdLock, x.key, d.store[x.key], g, Fast)
           else Admitting(AdmLock, x.key, g), Arrived)
    case WaitTimers => Await(d.p.timers.waiting == 0, Serving(WaitGroup))
    case WaitGroup => Go(Serving(Returned), Nop)
    case Returned => Blocked
  }

  /** Where the packet loop goes when `forwardOrQueue` returns. */
  function AfterForward(key: Key, sid: Sid, g: Datagram, site: Site, ok: bool): Pc {
    match site
    case Fast => if ok then Serving(Idle) else Admitting(AdmLock, key, g)
    case Retry => Admitting(if ok then AdmLeave else ReplRemove(sid), key, g)
    case Final(ready) => Admitting(if ready then AdmLeave else AdmStart, key, g)
  }

  function PlanForward(d: Data, at: ForwardPc, key: Key, sid: Sid, g: Datagram, site: Site, x: Input): Move {
    match at
    case FwdLock => Go(Forwarding(FwdCheck, key, sid, g, site), Nop)
    case FwdCheck =>
      if d.p.ready then Go(Forwarding(FwdTouch, key, sid, g, site), Nop)
      else if sid in d.sess && d.sess[sid].closed then Go(Forwarding(FwdDone(false), key, sid, g, site), Nop)
      else Go(Forwarding(FwdStart, key, sid, g, site), Enqueue(sid, g))
    case FwdStart => Go(Forwarding(FwdDone(true), key, sid, g, site), TryStart)
    case FwdTouch =>
      if sid in d.sess && d.sess[sid].closed then Go(Forwarding(FwdDone(false), key, sid, g, site), Nop)
      else Go(Forwarding(FwdWrite, key, sid, g, site), Touch(sid))
    case FwdWrite =>
      if !x.ok then Go(Forwarding(FwdDone(false), key, sid, g, site), Close(sid))
      else if IsDone(d, sid) then Blocked
      else Go(Forwarding(FwdDone(true), key, sid, g, site), Forward(sid, g))
    case FwdDone(ok) => Go(AfterForward(key, sid, g, site, ok), Nop)
  }

  function PlanAdmit(d: Data, at: AdmitPc, key: Key, g: Datagram, x: Input): Move {
    match at
    case AdmLock => Go(Admitting(AdmGet, key, g), Nop)
    case AdmGet =>
      Go(if key in d.store then Forwarding(FwdLock, key, d.store[key], g, Retry) else Admitting(Decide, key, g), Nop)
    case ReplRemove(sid) =>
      if Stored(d, key, sid) then Go(Admitting(ReplClose(sid), key, g), Unstore(key, sid, ByReplacement))
      else Go(Admitting(ReplQueue(sid), key, g), Nop)
    case ReplClose(sid) => Go(Admitting(ReplWait(sid), key, g), Close(sid))
    case ReplWait(sid) => Await(IsDone(d, sid), Admitting(ReplQueue(sid), key, g))
    case ReplQueue(sid) => Go(Admitting(Decide, key, g), RemoveQueue(sid))
    case Decide =>
      if d.now < d.p.blockedUntil then Go(Admitting(AdmLeave, key, g), Nop)
      else if d.p.ready || d.p.running then Go(Admitting(Create(d.p.ready), key, g), Nop)
      else if x.wake then Go(Admitting(Create(false), key, g), Detected)
      else Go(Admitting(AdmLeave, key, g), Nop)
    case Create(ready) =>
      if key in d.store then Go(Forwarding(FwdLock, key, d.store[key], g, Final(ready)), Nop)
      else if d.o.maxSessions <= |d.store| || !x.ok then Go(Admitting(AdmLeave, key, g), Nop)
      else if x.sid in d.sess then Blocked
      else Go(Admitting(CancelStop(x.sid, ready), key, g), Insert(key, x.sid))
    case CancelStop(sid, ready) => Go(Forwarding(FwdLock, key, sid, g, Final(ready)), CancelTimer(sid))
    case AdmStart => Go(Admitting(AdmLeave, key, g), TryStart)
    case AdmLeave => Go(Serving(Idle), Nop)
  }

  function AfterTeardown(why: Why): Pc {
    match why
    case Shutdown => Serving(WaitTimers)
    case Failed(_, _) => Exited
    case Lost(_) => Monitoring(MonTick(NO_FAILURES))
  }

  function PlanTeardown(d: Data, why: Why, at: TeardownPc, x: Input): Move {
    match at
    case TdAdmission => Go(Teardown(why, TdForwarding), Nop)
    case TdForwarding => Go(Teardown(why, TdMu), Nop)
    case TdMu =>
      if why.Lost? && (!d.p.ready || d.p.readyGen != why.readyGen) then Go(Teardown(why, TdLeave), Nop)
      else Go(Teardown(why, TdTake), Teared(why))
    case TdTake => Go(Teardown(why, TdClose(d.store.Values)), TakeAll)
    case TdClose(todo) =>
      if todo == {} then Go(Teardown(why, TdLeave), Nop)
      else if x.sid in todo then Go(Teardown(why, TdWait(x.sid, todo - {x.sid})), Close(x.sid))
      else Blocked
    case TdWait(sid, todo) => Await(IsDone(d, sid), Teardown(why, TdClose(todo)))
    case TdLeave => Go(AfterTeardown(why), Nop)
  }

  function PlanMark(after: After, locked: bool): Move {
    if !locked then Go(Marking(after, true), Nop)
    else
      match after
      case ToStart => Go(Ensuring(SendStart), MarkStopped(false))
      case ToTick(sent) => Go(Ensuring(TickWait(sent)), MarkStopped(false))
      case ToForget(gen, attempt) => Go(AutoStop(CbForget, gen, attempt), MarkStopped(true))
  }

  /** What `ensureRunning` does with an answer of the panel. */
  function PollResult(sent: bool, x: Input): Pc {
    if !x.ok then Ensuring(if x.permanent then Errored(true) else TickWait(sent))
    else
      match x.panel
      case Running => Ensuring(Adopt)
      case Offline => Marking(if sent then ToTick(true) else ToStart, false)
      case Starting => Marking(ToTick(true), false)
      case Stopping => Marking(ToTick(false), false)
      case Other => Ensuring(TickWait(sent))
  }

  function PlanEnsure(d: Data, gen: nat, at: EnsurePc, x: Input): Move {
    match at
    case Poll(sent) => Go(PollResult(sent, x), Nop)
    case TickWait(sent) => Go(Ensuring(if x.ok then Poll(sent) else Errored(false)), Nop)
    case SendStart => Go(Ensuring(StartInFlight), StartSent)
    case StartInFlight => Go(Ensuring(if !x.ok && x.permanent then Errored(true) else TickWait(true)), Nop)
    case Adopt => Go(Ensuring(if d.o.probing then AwaitReady else Settle), ObserveRunning)
    case AwaitReady => Go(Ensuring(if x.ok then Settle else Errored(x.permanent)), Nop)
    case Settle =>
      Go(if !x.ok then Ensuring(Errored(false)) else if d.o.probing then Ensuring(Reprobe) else Opening(OpenAdmission),
         Nop)
    case Reprobe => Go(if x.ok then Opening(OpenAdmission) else Ensuring(Errored(x.permanent)), Nop)
    case Errored(permanent) =>
      Go(if d.cancelled then Opening(Finish) else Teardown(Failed(gen, permanent), TdAdmission), Nop)
  }

  function Position(pos: map<Sid, nat>, sid: Sid): nat {
    if sid in pos then pos[sid] else 0
  }

  predicate Flushed(d: Data, pos: map<Sid, nat>) {
    forall sid | sid in d.p.buffer.queues :: |d.p.buffer.queues[sid].packets| <= Position(pos, sid)
  }

  /** One datagram of the flush; a failure skips the rest of the session's queue. */
  function PlanFlush(d: Data, pos: map<Sid, nat>, sid: Sid, ok: bool): Move {
    if sid !in d.p.buffer.queues || sid !in d.sess
       || |d.p.buffer.queues[sid].packets| <= Position(pos, sid) then Blocked
    else
      var packets, k := d.p.buffer.queues[sid].packets, Position(pos, sid);
      if d.sess[sid].closed then Go(Opening(Flush(pos[sid := |packets|])), Nop)
      else if ok then Go(Opening(Flush(pos[sid := k + 1])), FlushWrite(sid, packets[k]))
      else Go(Opening(Flush(pos[sid := |packets|])), Close(sid))
  }

  function PlanOpen(d: Data, gen: nat, at: OpenPc, x: Input): Move {
    match at
    case OpenAdmission => Go(Opening(OpenForwarding), Nop)
    case OpenForwarding => Go(Opening(OpenMu), Nop)
    case OpenMu => if d.p.shuttingDown then Go(Opening(OpenLeave), Nop) else Go(Opening(Flush(map[])), SetRunning)
    case Flush(pos) => if Flushed(d, pos) then Go(Opening(OpenLen), OpenGate) else PlanFlush(d, pos, x.sid, x.ok)
    case OpenLen => Go(Opening(if d.store == map[] then OpenSchedule else OpenLeave), Nop)
    case OpenSchedule => Go(Opening(OpenLeave), ScheduleTimer)
    case OpenLeave => Go(Opening(Finish), Nop)
    case Finish => Go(if P.WantsRetrigger(d.p, gen, d.now) then Opening(Retrigger) else Exited, Complete(gen))
    case Retrigger => Go(Exited, TryStart)
  }

  /** `backendHealthFailures.record`. */
  function Record(f: Failures, gen: nat): Failures {
    if f.gen == gen then Failures(gen, f.count + 1) else Failures(gen, 1)
  }

  function PlanMonitor(d: Data, at: MonitorPc, x: Input): Move {
    match at
    case MonTick(f) =>
      if !x.ok then Await(d.cancelled, Exited)
      else if d.p.ready then Go(Monitoring(MonProbe(d.p.readyGen, f)), Nop)
      else Go(Monitoring(MonTick(NO_FAILURES)), Observe(GateClosed))
    case MonProbe(gen, f) => Go(if d.cancelled then Exited else Monitoring(MonCheck(gen, f, x.verdict)), Nop)
    case MonCheck(gen, f, verdict) =>
      if !d.p.ready || d.p.readyGen != gen then Go(Monitoring(MonTick(NO_FAILURES)), Observe(Stale(gen)))
      else if !verdict.Confirmed? then Go(Monitoring(MonTick(NO_FAILURES)), Observe(Probed(gen, verdict)))
      else
        var f1 := Record(f, gen);
        Go(if f1.count < HEALTH_FAILURE_THRESHOLD then Monitoring(MonTick(f1)) else Teardown(Lost(gen), TdAdmission),
           Observe(Probed(gen, verdict)))
  }

  function PlanSweep(d: Data, at: SweepPc, x: Input): Move {
    match at
    case SweepTick =>
      if !x.ok then Await(d.cancelled, Exited) else Await(x.tick <= d.now, Sweeping(SweepPending(x.tick)))
    case SweepPending(tick) => Go(Sweeping(Refresh(tick, d.p.buffer.queues.Keys)), Nop)
    case Refresh(tick, pending) =>
      if pending == {} then Go(Sweeping(ExpireLock(tick)), Nop)
      else if x.sid in pending then Go(Sweeping(Refresh(tick, pending - {x.sid})), Touch(x.sid))
      else Blocked
    case ExpireLock(tick) => Go(Sweeping(Expiring(tick, {})), Nop)
    case Expiring(tick, expired) =>
      if !x.ok then Go(Sweeping(ExpClose(expired, expired != {}, |d.store|)), Nop)
      else if Stored(d, x.key, x.sid) && x.sid in d.sess && S.Expirable(d.sess[x.sid], tick, d.o.idleTimeout) then
        Go(Sweeping(Expiring(tick, expired + {x.sid})), Expire(x.key, x.sid))
      else Blocked
    case ExpClose(todo, any, count) =>
      if todo == {} then Go(Sweeping(if any then SweepQueues(count) else SweepTick), Nop)
      else if x.sid in todo then Go(Sweeping(ExpWait(x.sid, todo - {x.sid}, any, count)), Close(x.sid))
      else Blocked
    case ExpWait(sid, todo, any, count) => Await(IsDone(d, sid), Sweeping(ExpClose(todo, any, count)))
    case SweepQueues(count) => Go(Sweeping(if count == 0 then SweepSchedule else SweepTick), RemoveQueues)
    case SweepSchedule => Go(Sweeping(SweepTick), ScheduleTimer)
  }

  function PlanWatch(d: Data, sid: Sid, at: WatchPc): Move {
    match at
    case Watch => Await(IsDone(d, sid), Watching(WatchRemove))
    case WatchRemove =>
      if sid !in d.sess then Blocked
      else
        var key := d.sess[sid].key;
        if Stored(d, key, sid) then Go(Watching(WatchQueue(d.store.Keys == {key})), Unstore(key, sid, ByWatcher))
        else Go(Watching(WatchQueue(false)), Nop)
    case WatchQueue(last) => Go(if last && !d.cancelled then Watching(WatchSchedule) else Exited, RemoveQueue(sid))
    case WatchSchedule => Go(Exited, ScheduleTimer)
  }

  function PlanStop(d: Data, id: TimerId, at: StopPc, gen: nat, attempt: nat, x: Input): Move {
    match at
    case CbAdmission => Go(AutoStop(CbLen, gen, attempt), Nop)
    case CbLen => Go(AutoStop(if d.store == map[] then CbMu else CbLeave, gen, attempt), Nop)
    case CbMu =>
      if gen != d.p.timers.gen || !d.p.ready then Go(AutoStop(CbLeave, gen, attempt), Nop)
      else if id !in d.h.callbacks then Blocked
      else Go(AutoStop(StopInFlight, gen, attempt),
              StopSent(StopRecord(gen, attempt, d.h.callbacks[id].armedAt, d.now)))
    case StopInFlight =>
      if x.ok then Go(Marking(ToForget(gen, attempt), false), StopAccepted)
      else Go(AutoStop(if MAX_AUTO_STOP_ATTEMPTS <= attempt then CbForget else CbRetry, gen, attempt), Nop)
    case CbForget => Go(AutoStop(CbLeave, gen, attempt), ForgetTimer(gen))
    case CbRetry => Go(AutoStop(CbLeave, gen, attempt), RetryStop(gen, attempt))
    case CbLeave => Go(AutoStop(CbExit, gen, attempt), Nop)
    case CbExit => Go(Exited, EndCallback(id))
  }

  function Plan(d: Data, t: Tid, pc: Pc, x: Input): Move {
    match pc
    case Serving(at) => PlanServe(d, at, x)
    case Forwarding(at, key, sid, g, site) => PlanForward(d, at, key, sid, g, site, x)
    case Admitting(at, key, g) => PlanAdmit(d, at, key, g, x)
    case Teardown(why, at) => PlanTeardown(d, why, at, x)
    case Marking(after, locked) => PlanMark(after, locked)
    case Ensuring(at) => if t.Startup? then PlanEnsure(d, t.gen, at, x) else Blocked
    case Opening(at) => if t.Startup? then PlanOpen(d, t.gen, at, x) else Blocked
    case Monitoring(at) => PlanMonitor(d, at, x)
    case Sweeping(at) => PlanSweep(d, at, x)
    case Watching(at) => if t.Watcher? then PlanWatch(d, t.sid, at) else Blocked
    case AutoStop(at, gen, attempt) => if t.Callback? then PlanStop(d, t.id, at, gen, attempt, x) else Blocked
    case Exited => Blocked
  }

  // ---- Steps and runs --------------------------------------------------------

  datatype State = State(d: Data, threads: map<Tid, Pc>, l: Locks)

  /** The goroutine that `op` spawns, if any; `Launch` spawns the sweeper, and the
      monitor beside it. */
  function Spawned(d: Data, op: Op): Option<(Tid, Pc)> {
    match op
    case TryStart =>
      if P.CanStart(d.p, d.now) then Some((Startup(d.p.startupGen + 1), Ensuring(Poll(false)))) else None
    case CancelTimer(sid) => Some((Watcher(sid), Watching(Watch)))
    case Launch => Some((Sweeper, Sweeping(SweepTick)))
    case Fire(id) =>
      if id in d.p.timers.alarms then
        Some((Callback(id), AutoStop(CbAdmission, d.p.timers.alarms[id].gen, d.p.timers.alarms[id].attempt)))
      else None
    case _ => None
  }

  function Spawn(d: Data, threads: map<Tid, Pc>, op: Op): map<Tid, Pc> {
    var launched := if op.Launch? && d.o.probing then threads[Monitor := Monitoring(MonTick(NO_FAILURES))] else threads;
    match Spawned(d, op)
    case Some((t, pc)) => launched[t := pc]
    case None => launched
  }

  /** `wg.Wait` returns when every other goroutine has exited. */
  ghost predicate AllExited(s: State) {
    forall t | t in s.threads :: t == Loop || s.threads[t] == Exited
  }

  /** Goroutine `t` moves to `m.pc`: what happens to the threads and the locks. */
  predicate Moved(s: State, s': State, t: Tid, m: Move)
    requires t in s.threads && m.Go?
  {
    && Free(s.l, s.threads[t], m.pc)
    && s'.threads == Spawn(s.d, s.threads, m.op)[t := m.pc]
    && s'.l == LocksAfter(s.l, t, s.threads[t], m.pc)
  }

  /** Goroutine `t` takes its next step. */
  ghost predicate ThreadStep(s: State, s': State, t: Tid, x: Input) {
    && t in s.threads
    && var m := Plan(s.d, t, s.threads[t], x);
    && m.Go?
    && (s.threads[t] == Serving(WaitGroup) ==> AllExited(s))
    && Applied(s.d, s'.d, m.op)
    && Moved(s, s', t, m)
  }

  /** What happens without any of the goroutines above: time passes, the context
      is cancelled, a session's socket fails or its reader exits or relays a
      backend packet, a timer fires. */
  predicate Spontaneous(d: Data, op: Op) {
    match op
    case Elapse(_) => true
    case CancelContext => true
    case Close(sid) => sid in d.sess
    case FinishReader(sid) => sid in d.sess && d.sess[sid].closed
    case Touch(sid) => sid in d.sess
    case Fire(id) => id in d.p.timers.alarms && d.p.timers.alarms[id].armedAt + d.p.timers.alarms[id].delay <= d.now
    case _ => false
  }

  ghost predicate OutsideStep(s: State, s': State, op: Op) {
    && Spontaneous(s.d, op)
    && Applied(s.d, s'.d, op)
    && s'.threads == Spawn(s.d, s.threads, op)
    && s'.l == s.l
  }

  datatype Action = Run(t: Tid, x: Input) | Outside(op: Op)

  ghost predicate Step(s: State, s': State, a: Action) {
    match a
    case Run(t, x) => ThreadStep(s, s', t, x)
    case Outside(op) => OutsideStep(s, s', op)
  }

  const NO_HISTORY := History(0, map[], map[], [], false, 0, [], false, false, [])

  ghost predicate Init(s: State) {
    && s.d.o.Valid()
    && s.d.p == P.INITIAL
    && s.d.store == map[] && s.d.sess == map[] && s.d.h == NO_HISTORY
    && s.threads == map[Loop := Serving(InitStatus)]
    && s.l == Locks(None, None, false, None, None)
  }

  ghost predicate StepAt(run: seq<State>, acts: seq<Action>, k: nat)
    requires k < |acts| && |run| == |acts| + 1
  {
    Step(run[k], run[k + 1], acts[k])
  }

  /** `run` is a finite execution and `acts[k]` the action that leads to `run[k + 1]`. */
  ghost predicate IsRun(run: seq<State>, acts: seq<Action>) {
    && |run| == |acts| + 1
    && Init(run[0])
    && forall k: nat {:trigger StepAt(run, acts, k)} | k < |acts| :: StepAt(run, acts, k)
  }
}
