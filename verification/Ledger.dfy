/** The session ledger: one open session per client key, the store within its
    capacity, and every session leaving the store exactly once. */
module Ledger {
  import opened Basics
  import opened Lifecycle
  import opened Control
  import opened Facts
  import opened Sessions
  import opened Invariant
  import E = Effects

  predicate Open(d: Data, sid: Sid) {
    sid in d.sess && !d.sess[sid].closed
  }

  /** Two open sessions belong to different clients. */
  predicate UniqueAt(d: Data, a: Sid, b: Sid) {
    a != b && Open(d, a) && Open(d, b) ==> d.sess[a].key != d.sess[b].key
  }

  ghost predicate LedgerInv(d: Data) {
    && |d.store| <= d.o.maxSessions
    && forall a, b {:trigger UniqueAt(d, a, b)} :: UniqueAt(d, a, b)
  }

  lemma CapacityKept(d: Data, d': Data, pc: Pc, pc': Pc, op: Op)
    requires |d.store| <= d.o.maxSessions && Performs(d, pc, pc', op) && Applied(d, d', op)
    ensures |d'.store| <= d'.o.maxSessions
  {
    if op.Insert? { assert d'.store.Keys == d.store.Keys + {op.key}; }
    else { assert d'.store.Keys <= d.store.Keys; Smaller(d'.store.Keys, d.store.Keys); }
  }

  lemma {:induction false} Smaller<T>(a: set<T>, b: set<T>)
    requires a <= b
    ensures |a| <= |b|
  {
    if a != {} {
      var x :| x in a;
      Smaller(a - {x}, b - {x});
    }
  }

  /** Behind an insertion every session of that key is closed. */
  lemma InsertedAlone(s: State, key: Key, sid: Sid)
    requires Inv(s) && s.threads[Loop].Admitting? && s.threads[Loop].admit.Create? && key !in s.d.store
    ensures Open(s.d, sid) ==> s.d.sess[sid].key != key
  {
    assert SessionAt(s, sid) && At(s, Loop);
  }

  lemma UniqueKept(d: Data, d': Data, op: Op, a: Sid, b: Sid)
    requires UniqueAt(d, a, b) && Applied(d, d', op)
    requires op.Insert? ==> op.sid !in d.sess
    requires op.Insert? && Open(d, a) ==> d.sess[a].key != op.key
    requires op.Insert? && Open(d, b) ==> d.sess[b].key != op.key
    ensures UniqueAt(d', a, b)
  {
    E.SessionChange(d, d', op, a);
    E.SessionChange(d, d', op, b);
  }

  lemma LedgerStep(s: State, s': State, t: Tid, x: Input)
    requires Inv(s) && LedgerInv(s.d) && ThreadStep(s, s', t, x)
    ensures LedgerInv(s'.d)
  {
    var m := Plan(s.d, t, s.threads[t], x);
    Steps(s, s', t, x);
    CapacityKept(s.d, s'.d, s.threads[t], m.pc, m.op);
    forall a, b {:trigger UniqueAt(s'.d, a, b)} ensures UniqueAt(s'.d, a, b) {
      assert UniqueAt(s.d, a, b);
      if m.op.Insert? { InsertedAlone(s, m.op.key, a); InsertedAlone(s, m.op.key, b); }
      UniqueKept(s.d, s'.d, m.op, a, b);
    }
  }

  lemma LedgerOutside(s: State, s': State, op: Op)
    requires Inv(s) && LedgerInv(s.d) && OutsideStep(s, s', op)
    ensures LedgerInv(s'.d)
  {
    CapacityKept(s.d, s'.d, Exited, Exited, op);
    forall a, b {:trigger UniqueAt(s'.d, a, b)} ensures UniqueAt(s'.d, a, b) {
      assert UniqueAt(s.d, a, b);
      UniqueKept(s.d, s'.d, op, a, b);
    }
  }

  // ---- Leaving the store -----------------------------------------------------------

  predicate InStore(d: Data, sid: Sid) {
    sid in d.sess && Stored(d, d.sess[sid].key, sid)
  }

  /** A session that leaves the store is recorded with who removed it, and that
      record never changes again. */
  predicate LeavesOnce(d: Data, d': Data, sid: Sid) {
    && (sid in d.h.removed ==> sid in d'.h.removed && d'.h.removed[sid] == d.h.removed[sid])
    && (InStore(d, sid) && !InStore(d', sid) <==> sid !in d.h.removed && sid in d'.h.removed)
  }

  /** Sessions created are those in the store and those removed, and no session is both. */
  lemma CreatedIsPresentPlusRemoved(s: State)
    requires Inv(s)
    ensures s.d.sess.Keys == s.d.store.Values + s.d.h.removed.Keys
    ensures s.d.store.Values !! s.d.h.removed.Keys
    ensures |s.d.sess| == |s.d.store| + |s.d.h.removed|
  {
    forall sid ensures sid in s.d.sess <==> sid in s.d.store.Values || sid in s.d.h.removed
               ensures !(sid in s.d.store.Values && sid in s.d.h.removed) {
      assert SessionAt(s, sid);
    }
    assert s.d.sess.Keys == s.d.store.Values + s.d.h.removed.Keys;
    assert |s.d.sess.Keys| == |s.d.store.Values| + |s.d.h.removed.Keys|;
    DistinctValues(s.d.store, s.d.sess.Keys, map sid | sid in s.d.sess :: s.d.sess[sid].key);
  }

  /** A map whose values determine their keys has as many values as keys. */
  lemma {:induction false} DistinctValues(store: map<Key, Sid>, known: set<Sid>, keyOf: map<Sid, Key>)
    requires keyOf.Keys == known
    requires forall key | key in store :: store[key] in known && keyOf[store[key]] == key
    ensures |store.Values| == |store|
    decreases |store|
  {
    if store == map[] {
    } else {
      var key :| key in store;
      var rest := store - {key};
      forall sid | sid in store.Values ensures sid in rest.Values + {store[key]} {
        var k :| k in store && store[k] == sid;
        assert k == key || (k in rest && rest[k] == sid);
      }
      assert store.Values == rest.Values + {store[key]};
      assert store.Keys == rest.Keys + {key};
      DistinctValues(rest, known, keyOf);
    }
  }

  lemma LeavesOnceKept(d: Data, d': Data, pc: Pc, pc': Pc, op: Op, v: View, v': View, sid: Sid)
    requires v.d == d && v'.d == d' && LifeOk(v, sid) && LifeOk(v', sid) && StoreOk(d)
    requires Performs(d, pc, pc', op) && Applied(d, d', op)
    ensures LeavesOnce(d, d', sid)
  {
    E.SessionChange(d, d', op, sid);
    if !E.ChangesStore(op) { E.StoreFrame(d, d', op); }
  }

  /** Exactly-once removal, at every step of every goroutine. */
  lemma EveryStepRemovesOnce(s: State, s': State, a: Action, sid: Sid)
    requires Inv(s) && Inv(s') && Step(s, s', a)
    ensures LeavesOnce(s.d, s'.d, sid)
  {
    assert SessionAt(s, sid) && SessionAt(s', sid);
    match a
    case Run(t, x) =>
      var m := Plan(s.d, t, s.threads[t], x);
      Steps(s, s', t, x);
      LeavesOnceKept(s.d, s'.d, s.threads[t], m.pc, m.op, ViewOf(s, sid), ViewOf(s', sid), sid);
    case Outside(op) =>
      LeavesOnceKept(s.d, s'.d, Exited, Exited, op, ViewOf(s, sid), ViewOf(s', sid), sid);
  }
}
