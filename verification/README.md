# Verification of the wake gate

This project models the UDP wake gate of `pkg/proxy` with its sessions
(`pkg/session`), the readiness probes (`pkg/readiness`) and the error
classification of the panel client (`pkg/server`), and proves what the gate
promises: a game server behind it is started when players' datagrams wait for
it, never while it is being stopped; datagrams are buffered and delivered in
order; the server is stopped when nobody plays; and all of this under every
interleaving of the proxy's goroutines.

`dafny verify dfyconfig.toml` checks everything.

## How the model is built

**The lifecycle machine** (`Lifecycle.dfy`). The goroutines of the proxy are
program counters: the packet loop of `Serve` with its shutdown, startup
goroutines, the health monitor, the idle sweeper, one watcher per session and
one callback per fired auto-stop timer. A step is one critical section, one
acquisition or release of a lock, or the end of an external call. `admissionMu`,
`forwardingMu`, `mu` and `store.mu` are explicit. Answers of the panel, verdicts
of the detector and of the probe, the success of socket writes, time, and the
scheduler are arbitrary. Histories record what the theorems speak of: datagrams
accepted and written per session, Start and Stop requests, the monitor's
observations, sessions removed, wake-ups. A run is any finite sequence of steps
from the state that `New` leaves.

`ProxyState.dfy` and `SessionState.dfy` hold the sections under `Proxy.mu` and a
session's `activityMu` as functions. The machine interleaves these functions,
and the classes of `LiveProxy.dfy`, `LiveSession.dfy`, `SessionStore.dfy` and
`HealthMonitor.dfy`, whose methods update their fields in place with the loops
of the program, are proved against the same functions.

**The invariants.** `Control.dfy` (who can be where, with which locks),
`Facts.dfy` (what holds of the data at each program counter), `Sessions.dfy`
(where each session is stored, who closes and who watches it),
`Invariant.dfy` (their union is kept by every step), and on top of it
`Wakeup.dfy`, `Budget.dfy`, `Order.dfy`, `Health.dfy`, `Idle.dfy`,
`AutoStops.dfy` with `StopLog.dfy` and `StopSafety.dfy`, `Ledger.dfy` and
`Replacement.dfy`.
`Effects.dfy` says what each operation leaves alone. `Reachable.dfy` puts them
together: every state of every run satisfies them all.

**The theorems** are about whole runs: `PowerSafety.dfy`, `WakeGate.dfy`,
`Buffering.dfy`, `GateClosing.dfy`, `StartDiscipline.dfy`, `StopDiscipline.dfy`,
`Accounts.dfy`, `Progress.dfy` and `Termination.dfy`. `DroppedQueue.dfy` is one
concrete run, into the only moment in which a session's datagrams are neither
written nor queued.

**The session's close race** (`SessionRace.dfy`) is a second, finer machine: one
session with `activityMu`, the atomic flag and `closeOnce` as separate steps, and
any number of callers. `StepRefines` shows that it takes only the steps that the
lifecycle machine takes for a session. A session takes no lock of the proxy or the
store, so the lock orders of the two machines join: `admissionMu`, `forwardingMu`,
`mu` or `store.mu`, `closeOnce`, `activityMu`.

**The loops over answers.** `PollTrace.dfy` says, event by event, what
`ensureRunning` and the readiness loop inside it do in any world of answers and
delays, and proves what follows from that for every attempt; the loops of
`PollLoop.dfy` are proved to do exactly this. `Errors.dfy` is the wrap chain that
decides what is permanent; `A2S.dfy` and `A2SProbe.dfy` are the recogniser of
A2S_INFO replies (Valve Server Queries) and the query loops with their challenge.

Where the comments of the program promise more than its code does, the code was
followed. "Never send a duplicate start" (`pkg/proxy/proxy.go:483-486`) holds until
the panel reports that it is stopping. Then a further Start may be sent:
`PollTrace.DuplicateStart` is an attempt with two, and
`PollTrace.StartFollowsOffline` states exactly when one is sent.

## Model

| member | source | states |
|---|---|---|
| Reachable.RunFull | pkg/proxy/proxy.go:166-822 | Every reachable state of the interleaved proxy satisfies all its invariants: lock ownership, gate parity, session coverage, wake-up, budget, order, health, idle, timer and ledger. |
| Invariant.ThreadInv | pkg/proxy/proxy.go:230-822 | Each step of each goroutine keeps the core invariant: locks belong to who should hold them, the gate is open exactly in odd generations with the backend running and nothing queued, an open session is stored or being closed under `admissionMu`. |
| Invariant.OutsideInv | pkg/session/session.go:73-103 | So does everything that happens without the proxy: time, cancellation, socket failures, backend packets, firing timers. |
| PowerSafety.StopExcludesStartAndSessions | pkg/proxy/proxy.go:756-800 | From the moment a Stop is sent until it is answered the gate stays open and untouched, the store is empty, no session is open or created, and no Start is in flight or sent. |
| PowerSafety.OneStartup | pkg/proxy/proxy.go:376-397 | At most one goroutine is inside `ensureRunning`, and only behind a closed gate. |
| PowerSafety.StartBehindClosedGate | pkg/proxy/proxy.go:436-505 | A Start is sent only by that goroutine, with the gate closed. |
| PowerSafety.GateMovesUnderAdmission | pkg/proxy/proxy.go:507-548 | The gate opens and closes only under `admissionMu`, once a backend found running at first has been adopted. |
| WakeGate.NoLostWakeup | pkg/proxy/proxy.go:333-346 | Behind a closed gate, queued datagrams always have a live startup or a goroutine at its call of `startServer`, until shutdown. |
| WakeGate.WakeupIsHonoured | pkg/proxy/proxy.go:376-413 | That call, from the packet loop or from `finishStartup`, leaves a live startup and the queues untouched. |
| WakeGate.CooldownIsEmpty | pkg/proxy/proxy.go:415-434 | While the cooldown after a permanent failure lasts nothing is queued, and no session is open but those that failure is closing. |
| WakeGate.NoSessionWithoutWake | pkg/proxy/proxy.go:241-293 | Between a loss of the backend (monitor, accepted Stop, failed startup) and the next session lies a packet accepted by the detector or a Running answer. |
| WakeGate.NeverWokenNeverStarts | pkg/proxy/proxy.go:180-197 | A run without either creates no session and never sends Start. |
| WakeGate.PermanentFailuresSpread | pkg/proxy/proxy.go:415-429 | n permanent failures span at least n - 1 cooldowns. |
| WakeGate.AttemptAfterCooldown | pkg/proxy/proxy.go:376-385 | A startup attempt begins no earlier than the cooldown after the last permanent failure. |
| Buffering.WrittenThenQueued | pkg/proxy/proxy.go:333-374 | Per session: what was written upstream is a prefix of what was accepted, in arrival order. For an open session the rest is exactly what is still queued, if and only if no failed startup has just dropped the queues and is about to close the sessions, or nothing was left to write. |
| DroppedQueue.DatagramsCanBeDropped | pkg/proxy/proxy.go:421-431 | That window is real: a run ends with a session open and its one datagram accepted, but neither written nor queued. |
| Buffering.AcceptedOnce | pkg/proxy/proxy.go:230-293 | A datagram is accepted at most once, even where sessions of one client replace each other. |
| Buffering.LogsGrowAt | pkg/proxy/proxy.go:519-548 | A step appends at most one datagram to a session's logs, and writes upstream only with the gate open or within the opening flush. |
| Buffering.LogsOnlyGrow | pkg/proxy/proxy.go:333-374 | Sessions, and what they accepted and wrote, are never forgotten or rewritten. |
| Buffering.OpenIsQueued | pkg/proxy/proxy.go:562-572 | Behind a closed gate every open session is queued, except inside its own admission or a teardown that closes all. |
| Buffering.SweepSparesQueued | pkg/proxy/proxy.go:678-694 | The sweep never expires a queued session, nor any session before its idle timeout has passed. |
| Buffering.OnlyClosedIsReplaced | pkg/proxy/proxy.go:241-249 | `forwardOrQueue` fails only for a session that is closed, so a live session is never replaced. |
| Buffering.OpenGateIsDrained | pkg/proxy/proxy.go:542-548 | With the gate open the backend counts as running and nothing is buffered. |
| GateClosing.MonitorClosesItsOwnInterval | pkg/proxy/proxy.go:574-652 | The monitor closes the gate only after three consecutive confirmed failures. Each is the verdict of one probe, and from before that probe began to the closing the gate stayed open in one generation: a gate that closes and reopens during a probe is not closed for it. |
| GateClosing.ProbesBegin | pkg/proxy/proxy.go:584-595 | A probe under way began at a moment when the gate was open in the generation that its verdict will be counted for. |
| GateClosing.ClosingNeedsConfirmation | pkg/proxy/proxy.go:634-652 | The section that closes the gate finds it open in the very generation of those three observations. |
| GateClosing.SameInterval | pkg/proxy/proxy.go:186-193 | Equal readiness generations with the gate open mean that it never closed between: the generation check has no ABA. |
| GateClosing.GenerationAt | pkg/proxy/proxy.go:507-517 | Every step counts exactly its toggle of the gate, and the gate is open exactly in odd generations. |
| StopDiscipline.StopsAreNumbered | pkg/proxy/proxy.go:720-754 | Each Stop is the next attempt of its generation, at most the third, and comes its full delay after its timer was armed. |
| StopDiscipline.RetriesAreSpaced | pkg/proxy/proxy.go:784-800 | Attempts of one generation follow each other by at least the retry delay, and then twice that. |
| StopDiscipline.AtMostThree | pkg/proxy/proxy.go:48-53 | At most three Stops per stop generation. |
| StopDiscipline.AcceptedStopIsLast | pkg/proxy/proxy.go:773-782 | Between an accepted Stop and the next Stop the gate has opened again. |
| StopDiscipline.TimersAreAccounted | pkg/proxy/proxy.go:709-754 | At most one timer is unfired; it is `stopTimer` and of the current generation; the wait group counts it and the running callbacks. |
| StopDiscipline.QuietAfterShutdown | pkg/proxy/proxy.go:802-818 | After shutdown no timer is ever armed and no Stop is ever sent. |
| Accounts.OneSessionPerKey | pkg/session/store.go:28-47 | Two open sessions never share a client key, and the store never exceeds its capacity. |
| Accounts.CreatedBalance | pkg/session/store.go:62-110 | Sessions created are those stored and those removed, and none is both. |
| Accounts.RemovedOnce | pkg/proxy/proxy.go:305-322 | A session leaves the store once; who removed it is settled for good. |
| Accounts.BufferWithinBudget | pkg/proxy/proxy.go:357-374 | `queuedBytes` is the sum of the queues' bytes, each the sum of its datagrams' lengths, within the packet, session and global limits. |
| Accounts.ClosedQueueIsWatched | pkg/proxy/proxy.go:305-331 | Every queue belongs to a session whose watcher will still remove it. |
| Accounts.NothingQueuedAfterServe | pkg/proxy/proxy.go:173-178 | When `Serve` has returned no queue and no byte is left. |
| Ledger.EveryStepRemovesOnce | pkg/session/store.go:62-110 | At every step a session leaves the store exactly when its removal is recorded, and recorded removals never change. |
| StartDiscipline.StartAfterOffline | pkg/proxy/proxy.go:472-481 | In every run a Start comes directly after an Offline answer to the same attempt, with nothing between but the marking of the backend. |
| StartDiscipline.StoppingBetween | pkg/proxy/proxy.go:472-493 | In every run, between two Starts of one attempt, the panel has answered that attempt with Stopping. |
| Termination.EveryChainMoves | pkg/proxy/proxy.go:415-434 | Whoever waits for a lock or for a closed session is at most three goroutines away from one that can step. |
| Termination.NeverStuck | pkg/proxy/proxy.go:170-178 | What `Serve` waits for moves, in every reachable state. At its wait for timers some callback is left, and every such callback is within three goroutines of one that can step. At its wait for goroutines so is every one that has not exited, but for watchers, whose session's reader can exit or whose closer is; and once all have exited `Serve` can return. |
| Progress.NoDeadlock | pkg/proxy/proxy.go:507-560 | The lock order `admissionMu`, `forwardingMu`, then `mu` or `store.mu` bounds every chain of waiting goroutines. |
| Budget.BudgetKept | pkg/proxy/proxy.go:324-374 | Every section keeps the startup buffer's byte counts exact and within limits. |
| Budget.TotalOfPartition | pkg/proxy/proxy.go:696-707 | Dropping queues one by one subtracts exactly their bytes. |
| HealthMonitor.FirstClosing | pkg/proxy/proxy.go:574-632 | The monitor's loop closes at the first third confirmed failure in a row of one generation, and never otherwise. |
| HealthMonitor.BackendHealthFailures.Record | pkg/proxy/proxy.go:65-72 | Counts on within a generation and starts again with a new one. |
| LiveProxy.Proxy.EnqueueLocked | pkg/proxy/proxy.go:357-374 | Appends a datagram that the three limits allow and otherwise only marks the overflow. |
| LiveProxy.Proxy.RemoveQueue | pkg/proxy/proxy.go:324-331 | Removes one queue and its bytes. |
| LiveProxy.Proxy.RemoveClosedQueues | pkg/proxy/proxy.go:696-707 | The loop removes exactly the queues of finished sessions, with their bytes. |
| LiveProxy.Proxy.RefreshPendingSessions | pkg/proxy/proxy.go:562-572 | The loop touches every queued session. |
| LiveProxy.Proxy.OpenStartupGate | pkg/proxy/proxy.go:519-548 | Flushes every queue in order up to its first failure, empties the buffer and opens the gate; does nothing once shutting down. |
| LiveProxy.FlushQueue | pkg/proxy/proxy.go:534-541 | The inner loop of the flush is `ForwardClient` on one datagram after the other until one fails. |
| LiveProxy.FlushedPrefix | pkg/proxy/proxy.go:534-541 | That writes the longest sendable prefix of the queue, and closes the session exactly if that is not all of it. |
| LiveProxy.Proxy.StartServer | pkg/proxy/proxy.go:376-385 | Begins a startup of a new generation exactly if none runs, the gate is closed, and neither shutdown nor cooldown forbids it. |
| LiveProxy.Proxy.CompleteStartup | pkg/proxy/proxy.go:405-413 | Ends its own startup only, and asks for another exactly if datagrams wait behind a closed gate. |
| LiveProxy.Proxy.FailStartup | pkg/proxy/proxy.go:415-430 | Drops all queues, and for its own generation ends the startup and sets the cooldown of a permanent failure. |
| LiveProxy.Proxy.CloseBackendGate | pkg/proxy/proxy.go:634-652 | Closes the gate exactly if it is still open in the given generation. |
| LiveProxy.Proxy.MarkBackendNotRunning | pkg/proxy/proxy.go:507-517 | Closes the gate, counting the toggle. |
| LiveProxy.Proxy.ScheduleAutoStop | pkg/proxy/proxy.go:720-736 | Replaces the stop timer by the first attempt of a new generation, if the gate is open. |
| LiveProxy.Proxy.StopAutoStopTimerLocked | pkg/proxy/proxy.go:738-746 | Gives back the wait group's count exactly if the timer had not fired. |
| LiveProxy.Proxy.CancelAutoStop | pkg/proxy/proxy.go:709-718 | Begins a new stop generation, stops its predecessor's timer, and says whether there was one. |
| LiveProxy.Proxy.ForgetStopTimer | pkg/proxy/proxy.go:776-780 | The section after the last Stop: forgets the timer of the current generation only. |
| LiveProxy.Proxy.RetryAutoStop | pkg/proxy/proxy.go:793-798 | The section after a refused Stop: arms the next attempt after its doubled delay, if the gate is still open in that generation. |
| LiveProxy.Proxy.RunAutoStopAttempt | pkg/proxy/proxy.go:756-800 | Sends a Stop exactly with an empty store, an open gate and a current generation, then marks, forgets or retries. |
| LiveProxy.Proxy.Shutdown | pkg/proxy/proxy.go:802-818 | Closes the gate for good and retires the startup and the stop timer. |
| LiveSession.Session.Touch | pkg/session/session.go:126-134 | Succeeds exactly on an open session and then sets its activity. |
| LiveSession.Session.TryExpire | pkg/session/session.go:140-151 | Closes a session exactly if it is open and idle since before the cutoff, and its socket once. |
| LiveSession.Session.ForwardClient | pkg/session/session.go:112-124 | Touches and writes; a failed write closes the session, a closed one is reported as such. |
| LiveSession.Session.Close | pkg/session/session.go:162-175 | Closes the socket once, whatever closed before, and returns with the reader gone. |
| SessionStore.Store.GetOrCreate | pkg/session/store.go:28-47 | Returns the stored session, or stores a new one if there is room and it can be made. |
| SessionStore.Store.Remove | pkg/session/store.go:62-75 | Removes and closes that very session, and no successor under the same key. |
| SessionStore.Store.ExpireIdle | pkg/session/store.go:77-94 | Removes and closes exactly the open idle sessions, counts them, and leaves the others alone. |
| SessionStore.Store.CloseAll | pkg/session/store.go:96-110 | Empties the store and closes everything that was in it. |
| SessionStore.ExpireEach | pkg/session/store.go:79-86 | The loop under the lock expires exactly the idle sessions. |
| SessionRace.RunInv | pkg/session/session.go:73-175 | Every interleaving of a session's callers and goroutines keeps its invariant. |
| SessionRace.SocketClosedOnce | pkg/session/session.go:157-169 | The socket is closed at most once, after the session is marked closed, and has been closed when `Close`, a successful `TryExpire` or the reader returns. |
| SessionRace.CloseJoins | pkg/session/session.go:171-175 | When a `Close` has returned, in any interleaving, the reader and the context watcher have returned and `done` is closed. |
| SessionRace.ClosedIsFinal | pkg/session/session.go:126-138 | `closed` is terminal and freezes the last activity. |
| SessionRace.ExpiresOnce | pkg/session/session.go:140-151 | At most one `TryExpire` succeeds, for an activity before its cutoff that stays the last. |
| SessionRace.TouchSucceedsWhileOpen | pkg/session/session.go:126-134 | A whole call of `RecordActivity` returns true exactly if the session was open at one moment of the call, which then is its activity: it fails on a session closed before the call and succeeds on one still open after it. |
| SessionRace.NeverDeadlocks | pkg/session/session.go:162-175 | Whoever has not returned can step, or waits for an owner of `activityMu` or `closeOnce`, or a goroutine joined by `Close`, that can. |
| SessionRace.StepRefines | pkg/session/session.go:82-151 | Each step is a touch, a close, an expiry or the exit of the reader after the close, as the lifecycle takes them. |
| PollLoop.EnsureRunning | pkg/proxy/proxy.go:436-505 | In any world of answers and delays: every answer is the world's next one; Start only directly after Offline, the panel seen stopping between two Starts, so at most one Start more than that; the gate opens only after Running and, where probed, a successful wait and recheck; any other end is a permanent failure, a failed recheck, or at the deadline; at most one poll per interval, and one at first. |
| PollLoop.Poll | pkg/proxy/proxy.go:436-505 | The loop does exactly what this world makes of an attempt, up to its end, with that result and at that time. |
| PollLoop.Finish | pkg/proxy/proxy.go:447-471 | So does what follows a Running answer, up to the opening of the gate. |
| PollLoop.WaitReady | pkg/readiness/pterodactyl.go:50-66 | So does the readiness loop, which succeeds exactly if its last probe did. |
| PollTrace.TraceIsUnique | pkg/proxy/proxy.go:436-505 | The world determines the whole attempt. |
| PollTrace.AnswersInOrder | pkg/proxy/proxy.go:443-477 | The i-th poll, probe or Start of an attempt gets the world's i-th answer. |
| PollTrace.StartFollowsOffline | pkg/proxy/proxy.go:472-493 | A Start is sent exactly after an Offline answer, if none was sent or seen under way since the panel was last seen stopping. |
| PollTrace.StartsAreBounded | pkg/proxy/proxy.go:472-493 | Starts are at most one more than the times the panel was seen stopping. |
| PollTrace.StoppingBetweenStarts | pkg/proxy/proxy.go:472-493 | Between two Starts the panel was seen stopping. |
| PollTrace.DuplicateStart | pkg/proxy/proxy.go:483-493 | A panel that is offline, stopping and offline again gets two Starts from one attempt, both accepted. |
| PollTrace.GateOpensRightly | pkg/proxy/proxy.go:447-471 | The gate opens only after a Running answer was adopted and, where probed, after a wait whose only success is its last probe, the settling, and one more success. |
| PollTrace.AsksInTime | pkg/proxy/proxy.go:437-442 | The panel is polled and probed only before the deadline. |
| PollTrace.OtherErrorsAreLate | pkg/proxy/proxy.go:498-503 | An attempt that fails, and not for good, has reached the deadline or failed its recheck. |
| PollTrace.PollsAreBounded | pkg/proxy/proxy.go:440-442 | Polls are at most one per interval of the timeout, and one at first. |
| Errors.PermanentIffInChain | pkg/server/pterodactyl.go:47-61 | `IsPermanent` holds exactly if some error of the wrap chain is a `permanentError`, also through the inconclusive wrapper. |
| Errors.InconclusiveIffInChain | pkg/proxy/proxy.go:88-91 | A readiness error is inconclusive exactly if its chain contains the wrapper. |
| Errors.RefusalIsPermanent | pkg/server/pterodactyl.go:206-211 | A refusal is permanent exactly for client errors other than 408 and 429, or if it already was. |
| Errors.ProbeVerdicts | pkg/readiness/pterodactyl.go:36-48 | The probe succeeds on Running alone, confirms a failure on another answer, and is inconclusive, as permanent as the panel's error, without one. |
| A2S.ValidA2SInfo | pkg/readiness/a2s.go:145-170 | Accepts exactly the byte strings in the A2S_INFO format. |
| A2S.DecodeOfEncode | pkg/readiness/a2s.go:145-170 | Every encoded reply decodes to itself. |
| A2S.EncodeOfDecode | pkg/readiness/a2s.go:145-170 | Whatever decodes is in the format and encodes back to the same bytes. |
| A2S.EncodeIsInjective | pkg/readiness/a2s.go:145-170 | The format is unambiguous. |
| A2SProbe.Prober.Probe | pkg/readiness/a2s.go:46-77 | At most two queries; each is the A2S_INFO request or it with the challenge just received; success exactly on a valid reply to either. |
| A2SProbe.Prober.WaitReady | pkg/readiness/a2s.go:79-143 | The same of every query of the loop, each sent before the deadline; it ends with the first valid reply or, without one, once the round trips and pauses have reached the deadline. |
| A2SProbe.Slice.Append | pkg/readiness/a2s.go:131-135 | Appending in place or into a new array never reaches the shared query. |

## Left out

- Sockets, HTTP, JSON, configuration, logging, the health endpoint, `cmd/` and deployment: they enter as arbitrary answers, or not at all.
- `DetectStart`: an arbitrary verdict on each packet.
- Rate limiters of warnings, failure-class strings, redaction, `Config.Validate`, and the defaults that `New` fills in.
- The goroutine that closes the listener once the context is done: the packet loop may see the end of its listener at any time instead.
- Go's preference of waiting writers over new readers on `forwardingMu`: the machine allows more schedules, and only the packet loop reads.
- Fairness and real-time precision: the machine says who can step, not that the scheduler lets it; the clock is a non-decreasing integer.
- Wrap-around of the 64-bit generation counters: they are unbounded here.
- Proxies built without `New`: a run starts from the state that `New` leaves.
- A panic, and a failing `NewStore` or `Close`: the program's `Close` never returns an error.
- Termination.NeverStuck: states that a step is possible, not that `Serve` returns, which needs a fair scheduler and answers from the panel.
- LiveProxy.Proxy.RunAutoStopAttempt: sequential, with the panel's answer as an argument; its sections `StopIsDue`, `MarkBackendNotRunning`, `ForgetStopTimer` and `RetryAutoStop` hold from any state, and their interleavings are the machine's steps `CbAdmission` to `CbExit`.
- SessionStore.Store.ExpireIdle: the store's entries are dropped once the loop over them is done, under the same lock, rather than inside the loop.
- LiveSession.Session.Close: stands for the closing and for both goroutines' return; that it waits for them, in every interleaving, is `SessionRace.CloseJoins`.
- PollLoop.Poll: a context that is done is noticed before a tick that is also ready, where the program may take either.
- PollLoop.WaitReady: the loop of the panel probe only; the A2S loop is in `A2SProbe.dfy`.
- A2SProbe.Prober.WaitReady: a round trip takes at least one unit of time, without which a flood of challenges would never reach the deadline; failures to open a socket or set its deadline are not modelled.
