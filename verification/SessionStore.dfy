/** `session.Store`: the sessions by client key, with a capacity. */
module SessionStore {
  import opened Basics
  import opened LiveSession
  import S = SessionState

  /** The outcome of `GetOrCreate`. */
  datatype Found = Existing(session: Session) | Created(session: Session) | AtCapacity | FactoryFailed

  predicate IsIdle(y: S.State, cutoff: Time) {
    !y.closed && y.lastActivity < cutoff
  }

  lemma CountRest(all: map<Key, Session>, out: set<Key>)
    requires out <= all.Keys
    ensures |all - out| == |all| - |out|
  {
    assert all.Keys == (all - out).Keys + out;
  }

  class Store {
    const max: nat
    var sessions: map<Key, Session>

    /** Every session is stored under its own key, within the capacity. */
    ghost predicate Valid()
      reads this, sessions.Values
    {
      && |sessions| <= max
      && forall key | key in sessions :: sessions[key].key == key && sessions[key].Valid()
    }

    constructor (max: nat)
      requires 1 <= max
      ensures Valid() && sessions == map[] && this.max == max
    {
      this.max := max;
      sessions := map[];
    }

    method Get(key: Key) returns (found: Option<Session>)
      ensures found == if key in sessions then Some(sessions[key]) else None
    {
      found := if key in sessions then Some(sessions[key]) else None;
    }

    method Len() returns (n: nat)
      ensures n == |sessions|
    {
      n := |sessions|;
    }

    /** `GetOrCreate`; `dialled` is the success of the session factory. */
    method GetOrCreate(key: Key, now: Time, dialled: bool) returns (r: Found, count: nat)
      requires Valid()
      modifies this
      ensures Valid() && count == |sessions|
      ensures r.Existing? <==> key in old(sessions)
      ensures r.AtCapacity? <==> key !in old(sessions) && |old(sessions)| == max
      ensures r.Created? <==> key !in old(sessions) && |old(sessions)| < max && dialled
      ensures r.Existing? ==> r.session == old(sessions)[key]
      ensures r.Created? ==> fresh(r.session) && r.session.Abs() == S.New(key, now)
      ensures sessions == if r.Created? then old(sessions)[key := r.session] else old(sessions)
    {
      if key in sessions { return Existing(sessions[key]), |sessions|; }
      if |sessions| >= max { return AtCapacity, |sessions|; }
      if !dialled { return FactoryFailed, |sessions|; }
      var created := new Session(key, now);
      sessions := sessions[key := created];
      r, count := Created(created), |sessions|;
    }

    /** Removes the session `expected`, and no other that took its place, and closes it. */
    method Remove(key: Key, expected: Session) returns (removed: bool, count: nat)
      requires Valid() && expected.Valid()
      modifies this, expected
      ensures Valid() && count == |sessions|
      ensures removed <==> key in old(sessions) && old(sessions)[key] == expected
      ensures sessions == if removed then old(sessions) - {key} else old(sessions)
      ensures expected.Abs() ==
        if removed then S.Close(old(expected.Abs())).(done := true) else old(expected.Abs())
    {
      if key !in sessions || sessions[key] != expected { return false, |sessions|; }
      ghost var before := sessions;
      sessions := sessions - {key};
      assert before.Keys == sessions.Keys + {key};
      expected.Close();
      removed, count := true, |sessions|;
    }

    /** Removes and closes exactly the sessions that are open and idle since before
        `cutoff`; the others are left as they are. */
    method ExpireIdle(cutoff: Time) returns (expired: nat, count: nat)
      requires Valid()
      modifies this, sessions.Values
      ensures Valid() && count == |sessions| && expired == |old(sessions)| - |sessions|
      ensures forall key | key in sessions :: key in old(sessions) && sessions[key] == old(sessions)[key]
      ensures forall key | key in old(sessions) :: key in sessions <==> !IsIdle(old(sessions[key].Abs()), cutoff)
      ensures forall key | key in sessions :: sessions[key].Abs() == old(sessions[key].Abs())
      ensures forall key | key in old(sessions) && key !in sessions ::
        old(sessions)[key].Abs() == S.Close(old(sessions[key].Abs())).(done := true)
    {
      var all := sessions;
      var toClose := ExpireEach(all, cutoff);
      sessions := all - toClose;
      CountRest(all, toClose);
      count := |sessions|;
      expired := |toClose|;
      CloseEach(all, toClose);
    }

    /** Removes and closes every session. */
    method CloseAll()
      requires Valid()
      modifies this, sessions.Values
      ensures Valid() && sessions == map[]
      ensures forall key | key in old(sessions) ::
        old(sessions)[key].Abs() == S.Close(old(sessions[key].Abs())).(done := true)
    {
      var all := sessions;
      sessions := map[];
      CloseEach(all, all.Keys);
    }
  }

  /** The closing loop of `ExpireIdle` and `CloseAll`, after the store's lock. */
  method CloseEach(all: map<Key, Session>, toClose: set<Key>)
    requires toClose <= all.Keys && forall key | key in all :: all[key].key == key && all[key].Valid()
    modifies all.Values
    ensures forall key | key in all :: all[key].Valid()
    ensures forall key | key in toClose :: all[key].Abs() == S.Close(old(all[key].Abs())).(done := true)
    ensures forall key | key in all && key !in toClose :: all[key].Abs() == old(all[key].Abs())
  {
    var keys := toClose;
    while keys != {}
      invariant keys <= toClose
      invariant forall key | key in all :: all[key].Valid()
      invariant forall key | key in all && (key in keys || key !in toClose) :: all[key].Abs() == old(all[key].Abs())
      invariant forall key | key in toClose && key !in keys ::
        all[key].Abs() == S.Close(old(all[key].Abs())).(done := true)
    {
      var key :| key in keys;
      keys := keys - {key};
      all[key].Close();
    }
  }

  /** The loop of `ExpireIdle` under the store's lock. */
  method ExpireEach(all: map<Key, Session>, cutoff: Time) returns (out: set<Key>)
    requires forall key | key in all :: all[key].key == key && all[key].Valid()
    modifies all.Values
    ensures out <= all.Keys
    ensures forall key | key in all :: all[key].Valid()
    ensures forall key | key in all :: key in out <==> IsIdle(old(all[key].Abs()), cutoff)
    ensures forall key | key in all :: key in out ==> all[key].Abs() == S.Close(old(all[key].Abs()))
    ensures forall key | key in all :: key !in out ==> all[key].Abs() == old(all[key].Abs())
  {
    var keys := all.Keys;
    out := {};
    while keys != {}
      invariant keys <= all.Keys && out <= all.Keys && out !! keys
      invariant forall key | key in all :: all[key].Valid()
      invariant forall key | key in all && key !in keys :: key in out <==> IsIdle(old(all[key].Abs()), cutoff)
      invariant forall key | key in all && key in out :: all[key].Abs() == S.Close(old(all[key].Abs()))
      invariant forall key | key in all && key !in out :: all[key].Abs() == old(all[key].Abs())
    {
      var key :| key in keys;
      var expires := all[key].TryExpire(cutoff);
      keys := keys - {key};
      if expires { out := out + {key}; }
    }
  }
}
