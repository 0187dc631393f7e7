/** What clients' datagrams meet with, in every run: order, at most one effect,
    no write past the gate, and a place in the buffer until the gate opens. */
module Buffering {
  import opened Basics
  import opened Lifecycle
  import opened Control
  import opened Facts
  import opened Sessions
  import opened Invariant
  import opened Reachable
  import opened Order
  import opened Idle
  import opened Replacement
  import E = Effects
  import P = ProxyState

  // ---- Order -----------------------------------------------------------------------

  /** The datagrams of `sid` that wait in the startup buffer. */
  function Waiting(s: State, sid: Sid): seq<Datagram>
    requires Loop in s.threads
  {
    Remaining(ViewOf(s, sid), sid)
  }

  /** Every session's datagrams are accepted in arrival order and written in that
      order without a gap; those of an open session that are not written yet are
      exactly those in the buffer, but for the moment in which a failed startup has
      dropped the buffer and is closing the sessions. */
  lemma WrittenThenQueued(run: seq<State>, acts: seq<Action>, k: nat, sid: Sid)
    requires IsRun(run, acts) && k < |run| && sid in run[k].d.sess
    ensures Loop in run[k].threads
    ensures var y := run[k].d.sess[sid];
      && y.written <= y.accepted
      && (forall i, j | 0 <= i < j < |y.accepted| :: y.accepted[i].id < y.accepted[j].id)
      && (!y.closed ==>
            (y.accepted == y.written + Waiting(run[k], sid) <==> !Dropping(OwnerPc(run[k])) || y.written == y.accepted))
  {
    RunFull(run, acts, k);
    assert OrderAt(run[k], sid);
  }

  /** A datagram is accepted at most once, whatever sessions replace each other. */
  lemma AcceptedOnce(run: seq<State>, acts: seq<Action>, n: nat, a: Sid, i: nat, b: Sid, j: nat)
    requires IsRun(run, acts) && n < |run| && a in run[n].d.sess && b in run[n].d.sess
    requires i < |run[n].d.sess[a].accepted| && j < |run[n].d.sess[b].accepted|
    requires run[n].d.sess[a].accepted[i].id == run[n].d.sess[b].accepted[j].id
    ensures a == b && i == j
  {
    RunFull(run, acts, n);
    assert DisjointAt(run[n].d, a, b) && OrderAt(run[n], a);
  }

  predicate IsAppended<T(==)>(log: seq<T>, log': seq<T>) {
    log <= log' && |log'| <= |log| + 1
  }

  /** Logs grow at their end, by one datagram a step; a write needs the gate open
      or is part of the opening flush. */
  lemma WritesThroughGate(s: State, s': State, a: Action, sid: Sid)
    requires Inv(s) && Step(s, s', a) && sid in s.d.sess
    ensures sid in s'.d.sess
    ensures IsAppended(s.d.sess[sid].accepted, s'.d.sess[sid].accepted)
    ensures IsAppended(s.d.sess[sid].written, s'.d.sess[sid].written)
    ensures s'.d.sess[sid].written != s.d.sess[sid].written ==>
      a.Run? && a.t in s.threads && (s.d.p.ready || IsFlush(s.threads[a.t]))
  {
    match a
    case Run(t, x) =>
      var op := Plan(s.d, t, s.threads[t], x).op;
      assert At(s, t);
      Steps(s, s', t, x);
      E.SessionChange(s.d, s'.d, op, sid);
    case Outside(op) => E.SessionChange(s.d, s'.d, op, sid);
  }

  lemma {:induction false} LogsOnlyGrow(run: seq<State>, acts: seq<Action>, i: nat, j: nat, sid: Sid)
    requires IsRun(run, acts) && i <= j < |run| && sid in run[i].d.sess
    ensures sid in run[j].d.sess
    ensures run[i].d.sess[sid].accepted <= run[j].d.sess[sid].accepted
    ensures run[i].d.sess[sid].written <= run[j].d.sess[sid].written
  {
    if i < j {
      LogsOnlyGrow(run, acts, i, j - 1, sid);
      LogsGrowAt(run, acts, j - 1, sid);
    }
  }

  /** In a run: a session's logs grow by at most one datagram a step, and something
      is written upstream only with the gate open or by the opening flush. */
  lemma LogsGrowAt(run: seq<State>, acts: seq<Action>, k: nat, sid: Sid)
    requires IsRun(run, acts) && k < |acts| && sid in run[k].d.sess
    ensures sid in run[k + 1].d.sess
    ensures IsAppended(run[k].d.sess[sid].accepted, run[k + 1].d.sess[sid].accepted)
    ensures IsAppended(run[k].d.sess[sid].written, run[k + 1].d.sess[sid].written)
    ensures run[k + 1].d.sess[sid].written != run[k].d.sess[sid].written ==>
      && acts[k].Run? && acts[k].t in run[k].threads
      && (run[k].d.p.ready || IsFlush(run[k].threads[acts[k].t]))
  {
    RunFull(run, acts, k);
    assert StepAt(run, acts, k);
    WritesThroughGate(run[k], run[k + 1], acts[k], sid);
  }

  // ---- Behind the closed gate ------------------------------------------------------------

  /** Behind a closed gate every open session is queued, except while the packet
      loop is admitting it or a teardown is closing all. */
  lemma OpenIsQueued(run: seq<State>, acts: seq<Action>, k: nat, sid: Sid)
    requires IsRun(run, acts) && k < |run|
    requires sid in run[k].d.sess && !run[k].d.sess[sid].closed && !run[k].d.p.ready
    ensures Loop in run[k].threads
    ensures sid in run[k].d.p.buffer.queues || TearingDown(OwnerPc(run[k])) || Admitted(run[k].threads[Loop], sid)
  {
    RunFull(run, acts, k);
    assert SessionAt(run[k], sid);
  }

  /** The idle sweep never expires a session that has a queue, however long the
      startup takes, nor any other before its idle timeout. */
  lemma SweepSparesQueued(run: seq<State>, acts: seq<Action>, k: nat)
    requires IsRun(run, acts) && k < |acts| && OpOf(run[k], acts[k]).Expire?
    ensures var sid := OpOf(run[k], acts[k]).sid;
      && sid !in run[k].d.p.buffer.queues && sid in run[k].d.sess
      && run[k].d.sess[sid].lastActivity + run[k].d.o.idleTimeout < run[k].d.now
  {
    RunFull(run, acts, k);
    assert StepAt(run, acts, k);
    QueuedNeverExpires(run[k], run[k + 1], acts[k]);
  }

  lemma QueuedNeverExpires(s: State, s': State, a: Action)
    requires Inv(s) && IdleInv(s) && Step(s, s', a) && OpOf(s, a).Expire?
    ensures OpOf(s, a).sid !in s.d.p.buffer.queues
    ensures s.d.sess[OpOf(s, a).sid].lastActivity + s.d.o.idleTimeout < s.d.now
  {
    assert At(s, a.t);
    Steps(s, s', a.t, a.x);
    assert IdleOk(s.d, s.threads[Sweeper], OpOf(s, a).sid);
  }

  /** A session is given up, and replaced, only once it is closed. */
  lemma OnlyClosedIsReplaced(run: seq<State>, acts: seq<Action>, k: nat)
    requires IsRun(run, acts) && k < |run| && Loop in run[k].threads && GivenUp(run[k].threads[Loop]).Some?
    ensures Closed(run[k].d, GivenUp(run[k].threads[Loop]).value)
  {
    RunFull(run, acts, k);
  }

  /** With the gate open the backend counts as running and nothing is buffered. */
  lemma OpenGateIsDrained(run: seq<State>, acts: seq<Action>, k: nat)
    requires IsRun(run, acts) && k < |run| && run[k].d.p.ready
    ensures run[k].d.p.running && run[k].d.p.buffer == P.EMPTY_BUFFER && !run[k].d.p.shuttingDown
  {
    RunFull(run, acts, k);
  }
}
