/** The startup buffer stays within its limits, and its byte counts are exact. */
module Budget {
  import opened Basics
  import opened ProxyState
  import L = Lifecycle
  import E = Effects

  predicate QueueOk(q: Queue, o: Options) {
    q.bytes == PayloadBytes(q.packets) && |q.packets| <= o.bufferPackets && q.bytes <= o.bufferBytesPerSession
  }

  ghost predicate BufferOk(b: Buffer, o: Options) {
    && (forall sid | sid in b.queues :: QueueOk(b.queues[sid], o))
    && b.bytes == TotalBytes(b.queues)
    && b.bytes <= o.bufferBytesGlobal
  }

  // ---- Sums over maps ----------------------------------------------------------

  lemma {:induction false} TotalOfRemoval(m: map<Sid, Queue>, sid: Sid)
    requires sid in m
    ensures TotalBytes(m) == m[sid].bytes + TotalBytes(m - {sid})
    decreases |m|
  {
    var first :| first in m && TotalBytes(m) == m[first].bytes + TotalBytes(m - {first});
    if first != sid {
      TotalOfRemoval(m - {first}, sid);
      TotalOfRemoval(m - {sid}, first);
      assert m - {first} - {sid} == m - {sid} - {first};
    }
  }

  lemma TotalOfUpdate(m: map<Sid, Queue>, sid: Sid, q: Queue)
    ensures TotalBytes(m[sid := q]) == q.bytes + TotalBytes(m - {sid})
  {
    TotalOfRemoval(m[sid := q], sid);
    assert m[sid := q] - {sid} == m - {sid};
  }

  lemma TotalWithout(m: map<Sid, Queue>, sid: Sid)
    ensures TotalBytes(m) == (if sid in m then m[sid].bytes else 0) + TotalBytes(m - {sid})
  {
    if sid in m { TotalOfRemoval(m, sid); } else { assert m - {sid} == m; }
  }

  lemma {:induction false} TotalOfPartition(m: map<Sid, Queue>, gone: set<Sid>)
    ensures TotalBytes(m) == TotalBytes(Restrict(m, gone)) + TotalBytes(m - gone)
    decreases gone
  {
    if gone == {} {
      assert m - gone == m && Restrict(m, gone) == map[];
    } else {
      var sid :| sid in gone;
      var rest := gone - {sid};
      TotalOfPartition(m, rest);
      TotalWithout(m - rest, sid);
      TotalWithout(Restrict(m, gone), sid);
      assert m - rest - {sid} == m - gone;
      assert Restrict(m, gone) - {sid} == Restrict(m, rest);
    }
  }

  // ---- Every section keeps the budget --------------------------------------------

  lemma EnqueueBudget(b: Buffer, sid: Sid, g: Datagram, o: Options)
    requires BufferOk(b, o)
    ensures BufferOk(Enqueue(b, sid, g, o), o)
  {
    TotalWithout(b.queues, sid);
    if Accepts(b, sid, g, o) { AcceptedBudget(b, sid, g, o); }
    else { TotalOfUpdate(b.queues, sid, QueueOf(b, sid).(overflowLogged := true)); }
  }

  lemma AcceptedBudget(b: Buffer, sid: Sid, g: Datagram, o: Options)
    requires BufferOk(b, o) && Accepts(b, sid, g, o)
    ensures BufferOk(Enqueue(b, sid, g, o), o)
  {
    var q := QueueOf(b, sid);
    var q1 := q.(packets := q.packets + [g], bytes := q.bytes + |g.payload|);
    TotalWithout(b.queues, sid);
    TotalOfUpdate(b.queues, sid, q1);
    assert q1.packets[..|q1.packets| - 1] == q.packets;
    assert QueueOk(q, o) && QueueOk(q1, o);
  }

  lemma RemoveQueueBudget(b: Buffer, sid: Sid, o: Options)
    requires BufferOk(b, o)
    ensures BufferOk(RemoveQueue(b, sid), o)
  {
    TotalWithout(b.queues, sid);
  }

  lemma RemoveQueuesBudget(b: Buffer, gone: set<Sid>, o: Options)
    requires BufferOk(b, o)
    ensures BufferOk(RemoveQueues(b, gone), o)
  {
    TotalOfPartition(b.queues, gone);
  }

  lemma BudgetKept(d: L.Data, d': L.Data, op: L.Op)
    requires BufferOk(d.p.buffer, d.o) && L.Applied(d, d', op)
    ensures BufferOk(d'.p.buffer, d'.o)
  {
    E.ClockFrame(d, d', op);
    if op.Enqueue? { EnqueueBudget(d.p.buffer, op.sid, op.d, d.o); }
    else if op.RemoveQueue? { RemoveQueueBudget(d.p.buffer, op.sid, d.o); }
    else if op.RemoveQueues? { RemoveQueuesBudget(d.p.buffer, L.DoneSessions(d), d.o); }
    else if !E.ChangesQueues(op) { E.QueueFrame(d, d', op); }
  }
}
