/** The books of a run: sessions, their keys, and the bytes of the startup buffer. */
module Accounts {
  import opened Basics
  import opened Lifecycle
  import opened Control
  import opened Facts
  import opened Sessions
  import opened Invariant
  import opened Reachable
  import opened Budget
  import opened Ledger
  import P = ProxyState

  /** Each client key has at most one open session and the store stays within its capacity. */
  lemma OneSessionPerKey(run: seq<State>, acts: seq<Action>, k: nat, a: Sid, b: Sid)
    requires IsRun(run, acts) && k < |run|
    ensures |run[k].d.store| <= run[k].d.o.maxSessions
    ensures Open(run[k].d, a) && Open(run[k].d, b) && run[k].d.sess[a].key == run[k].d.sess[b].key ==> a == b
  {
    RunFull(run, acts, k);
    assert UniqueAt(run[k].d, a, b);
  }

  /** Created sessions are those present and those removed. */
  lemma CreatedBalance(run: seq<State>, acts: seq<Action>, k: nat)
    requires IsRun(run, acts) && k < |run|
    ensures run[k].d.sess.Keys == run[k].d.store.Values + run[k].d.h.removed.Keys
    ensures run[k].d.store.Values !! run[k].d.h.removed.Keys
    ensures |run[k].d.sess| == |run[k].d.store| + |run[k].d.h.removed|
  {
    RunFull(run, acts, k);
    CreatedIsPresentPlusRemoved(run[k]);
  }

  lemma LeavesAt(run: seq<State>, acts: seq<Action>, k: nat, sid: Sid)
    requires IsRun(run, acts) && k < |acts|
    ensures LeavesOnce(run[k].d, run[k + 1].d, sid)
  {
    RunFull(run, acts, k);
    RunFull(run, acts, k + 1);
    assert StepAt(run, acts, k);
    EveryStepRemovesOnce(run[k], run[k + 1], acts[k], sid);
  }

  /** Whoever removes a session does so for good: its record never changes, and it
      never leaves the store again. */
  lemma {:induction false} RemovedOnce(run: seq<State>, acts: seq<Action>, i: nat, j: nat, sid: Sid)
    requires IsRun(run, acts) && i <= j < |acts| && sid in run[i].d.h.removed
    ensures sid in run[j].d.h.removed && run[j].d.h.removed[sid] == run[i].d.h.removed[sid]
    ensures !(InStore(run[j].d, sid) && !InStore(run[j + 1].d, sid))
  {
    if i < j {
      RemovedOnce(run, acts, i, j - 1, sid);
      LeavesAt(run, acts, j - 1, sid);
    }
    LeavesAt(run, acts, j, sid);
  }

  /** `queuedBytes` is the sum over the queues of their datagrams' lengths, and no
      limit of the startup buffer is ever exceeded. */
  lemma BufferWithinBudget(run: seq<State>, acts: seq<Action>, k: nat)
    requires IsRun(run, acts) && k < |run|
    ensures BufferOk(run[k].d.p.buffer, run[k].d.o)
  {
    RunFull(run, acts, k);
  }

  /** The queue of a closed session has a watcher that will still remove it. */
  lemma ClosedQueueIsWatched(run: seq<State>, acts: seq<Action>, k: nat, sid: Sid)
    requires IsRun(run, acts) && k < |run| && sid in run[k].d.p.buffer.queues
    ensures sid in run[k].d.sess && Pending(PcOf(run[k], Watcher(sid)))
  {
    RunFull(run, acts, k);
    assert SessionAt(run[k], sid);
  }

  /** Once `Serve` has returned nothing is queued or accounted for. */
  lemma NothingQueuedAfterServe(run: seq<State>, acts: seq<Action>, k: nat)
    requires IsRun(run, acts) && k < |run| && Loop in run[k].threads && run[k].threads[Loop] == Serving(Returned)
    ensures run[k].d.p.buffer == P.EMPTY_BUFFER
  {
    RunFull(run, acts, k);
    forall sid ensures sid !in run[k].d.p.buffer.queues {
      assert SessionAt(run[k], sid);
    }
    assert run[k].d.p.buffer.queues == map[];
  }
}
