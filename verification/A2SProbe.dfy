/** `A2SProbe.Probe` and `A2SProbe.WaitReady`: the query and challenge loops, with
    the query built in place in a reused buffer. */
module A2SProbe {
  import opened Basics
  import opened A2S

  /** The A2S_INFO request: four 0xff, 'T', and "Source Engine Query" with its NUL. */
  const QUERY: seq<byte> := [
    0xff, 0xff, 0xff, 0xff, 0x54, 0x53, 0x6f, 0x75, 0x72, 0x63, 0x65, 0x20, 0x45,
    0x6e, 0x67, 0x69, 0x6e, 0x65, 0x20, 0x51, 0x75, 0x65, 0x72, 0x79, 0x00]

  datatype Reply = Datagram(data: seq<byte>, truncated: bool) | Timeout | ReadError

  /** One query and what came of it. */
  datatype Exchange = WriteFailed | Read(reply: Reply)

  /** What the network will do with query number i, and how long it takes; a round
      trip takes at least one unit of time. */
  datatype World = World(exchange: nat -> Exchange, latency: nat -> Time, interval: Time, timeout: Time)
  {
    ghost predicate Valid() { forall i :: 1 <= latency(i) }
  }

  /** A complete datagram with the single-packet header. */
  predicate IsResponse(x: Exchange) {
    && x.Read? && x.reply.Datagram? && !x.reply.truncated && 5 <= |x.reply.data|
    && x.reply.data[0] == 0xff && x.reply.data[1] == 0xff && x.reply.data[2] == 0xff && x.reply.data[3] == 0xff
  }

  predicate IsChallenge(x: Exchange) {
    IsResponse(x) && x.reply.data[4] == CHALLENGE && 9 <= |x.reply.data|
  }

  ghost predicate IsReady(x: Exchange) {
    IsResponse(x) && x.reply.data[4] == INFO && IsInfo(x.reply.data)
  }

  /** The query that must follow an exchange: the fixed one, with the four bytes of a
      challenge exactly if a challenge has just been received. */
  function QueryAfter(fixed: seq<byte>, x: Exchange): seq<byte> {
    if IsChallenge(x) then fixed + x.reply.data[5..9] else fixed
  }

  function QueryAt(fixed: seq<byte>, w: World, i: nat): seq<byte> {
    if i == 0 then fixed else QueryAfter(fixed, w.exchange(i - 1))
  }

  /** The package's one copy of the request. */
  method SharedQuery() returns (shared: array<byte>)
    ensures fresh(shared) && shared[..] == QUERY
  {
    shared := new byte[|QUERY|](i requires 0 <= i < |QUERY| => QUERY[i]);
  }

  /** A byte slice: a length within an array that appending may outgrow. */
  class Slice {
    var data: array<byte>
    var len: nat

    predicate Valid()
      reads this
    {
      len <= data.Length
    }

    function Abs(): seq<byte>
      reads this, data
      requires Valid()
    {
      data[..len]
    }

    constructor ()
      ensures Valid() && Abs() == [] && fresh(data)
    {
      data := new byte[0];
      len := 0;
    }

    /** `slice[:0]`. */
    method Truncate()
      requires Valid()
      modifies this`len
      ensures Valid() && Abs() == []
    {
      len := 0;
    }

    /** `append`: in place while the capacity lasts, else into a new array. */
    method Append(more: seq<byte>)
      requires Valid()
      modifies this, data
      ensures Valid() && Abs() == old(Abs()) + more && (data == old(data) || fresh(data))
    {
      if data.Length - len < |more| {
        var grown := new byte[2 * data.Length + |more|];
        forall i | 0 <= i < len { grown[i] := data[i]; }
        data := grown;
      }
      ghost var before := data[..len];
      forall i | 0 <= i < |more| { data[len + i] := more[i]; }
      assert data[..len] == before;
      len := len + |more|;
      assert data[..len] == before + more;
    }
  }

  /** A fresh query for what follows `x`, or the first. */
  method NewQuery(shared: array<byte>, x: Option<Exchange>) returns (query: Slice)
    ensures query.Valid() && fresh(query) && fresh(query.data)
    ensures query.Abs() == if x.None? then shared[..] else QueryAfter(shared[..], x.value)
  {
    query := new Slice();
    query.Append(shared[..]);
    if x.Some? && IsChallenge(x.value) { query.Append(x.value.reply.data[5..9]); }
  }

  predicate SentOk(fixed: seq<byte>, w: World, sent: seq<seq<byte>>) {
    forall i | 0 <= i < |sent| :: sent[i] == QueryAt(fixed, w, i)
  }

  ghost predicate NoneReady(w: World, n: nat) {
    forall i | 0 <= i < n :: !IsReady(w.exchange(i))
  }

  /** Rewrites the query in place for the exchange just made. */
  method Requery(query: Slice, shared: array<byte>, x: Exchange)
    requires query.Valid() && shared != query.data
    modifies query, query.data
    ensures query.Valid() && query.Abs() == QueryAfter(shared[..], x)
    ensures query.data == old(query.data) || fresh(query.data)
  {
    query.Truncate();
    query.Append(shared[..]);
    if IsChallenge(x) { query.Append(x.reply.data[5..9]); }
  }

  /** The test of one exchange's reply. */
  method Accepts(x: Exchange) returns (ready: bool)
    ensures ready <==> IsReady(x)
  {
    if !IsResponse(x) || x.reply.data[4] != INFO { return false; }
    ready := ValidA2SInfo(x.reply.data);
  }

  /** `waitForRetry`, which the deadline cuts short; there is no pause after a challenge,
      or after a read that has waited already. */
  function Pause(w: World, now: Time, x: Exchange): Time {
    if IsChallenge(x) || x == Read(Timeout) then now
    else if now + w.interval < w.timeout then now + w.interval
    else if now < w.timeout then w.timeout else now
  }

  /** When query number i is due: after the round trips and pauses of those before it. */
  function DueAt(w: World, i: nat): Time {
    if i == 0 then 0 else Pause(w, DueAt(w, i - 1) + w.latency(i - 1), w.exchange(i - 1))
  }

  predicate InTime(w: World, n: nat) {
    forall i | 0 <= i < n :: DueAt(w, i) < w.timeout
  }

  lemma {:induction false} DueGrows(w: World, i: nat)
    requires w.Valid()
    ensures i <= DueAt(w, i)
  {
    if i > 0 { DueGrows(w, i - 1); }
  }

  /** The right queries were sent, each before the deadline, and the next is due at `now`. */
  predicate Sent(fixed: seq<byte>, w: World, sent: seq<seq<byte>>, now: Time) {
    SentOk(fixed, w, sent) && InTime(w, |sent|) && now == DueAt(w, |sent|) && |sent| <= w.timeout
  }

  lemma SentMore(fixed: seq<byte>, w: World, sent: seq<seq<byte>>, now: Time, query: seq<byte>)
    requires w.Valid() && Sent(fixed, w, sent, now) && now < w.timeout && query == QueryAt(fixed, w, |sent|)
    ensures var n := |sent|; Sent(fixed, w, sent + [query], Pause(w, now + w.latency(n), w.exchange(n)))
  {
    DueGrows(w, |sent|);
  }

  /** `A2SProbe` with the package's query. */
  class Prober {
    const shared: array<byte>

    predicate Valid()
      reads shared
    {
      shared[..] == QUERY
    }

    constructor ()
      ensures Valid() && fresh(shared)
    {
      var query := SharedQuery();
      shared := query;
    }

    /** At most two queries, the second only to answer a challenge; each is the A2S_INFO
        request, or it with the challenge just received.  No step writes to the shared
        request: it is not in the frame. */
    method Probe(w: World, expired: bool) returns (ok: bool, sent: seq<seq<byte>>)
      requires Valid()
      ensures Valid() && SentOk(QUERY, w, sent)
      ensures |sent| == if expired then 0 else if IsChallenge(w.exchange(0)) then 2 else 1
      ensures ok ==> !expired
      ensures !expired ==>
        (ok <==> IsReady(w.exchange(0)) || (IsChallenge(w.exchange(0)) && IsReady(w.exchange(1))))
    {
      sent := [];
      if expired { return false, sent; }
      var query := NewQuery(shared, None);
      for attempts := 0 to 2
        invariant query.Valid() && |sent| == attempts && SentOk(shared[..], w, sent)
        invariant query.Abs() == QueryAt(shared[..], w, attempts)
        invariant forall i | 0 <= i < attempts :: IsChallenge(w.exchange(i))
      {
        sent := sent + [query.Abs()];
        var x := w.exchange(attempts);
        if !IsChallenge(x) || attempts != 0 {
          ok := Accepts(x);
          return;
        }
        query := NewQuery(shared, Some(x));
      }
      ok := false;
    }

    /** Queries until the first valid reply, or, without one, until the deadline
        has passed; every query is sent before it. */
    method WaitReady(w: World) returns (ok: bool, now: Time, sent: seq<seq<byte>>)
      requires Valid() && w.Valid()
      ensures Valid() && SentOk(QUERY, w, sent) && InTime(w, |sent|) && |sent| <= w.timeout
      ensures ok ==>
        && sent != [] && IsReady(w.exchange(|sent| - 1)) && NoneReady(w, |sent| - 1)
        && now == DueAt(w, |sent| - 1) + w.latency(|sent| - 1)
      ensures !ok ==> NoneReady(w, |sent|) && now == DueAt(w, |sent|) && w.timeout <= now
    {
      ghost var fixed := shared[..];
      var query := NewQuery(shared, None);
      ok, now, sent := false, 0, [];
      while now < w.timeout
        invariant query.Valid() && fresh(query) && fresh(query.data)
        invariant Sent(fixed, w, sent, now) && NoneReady(w, |sent|) && query.Abs() == QueryAt(fixed, w, |sent|)
        decreases w.timeout - now
      {
        var x := w.exchange(|sent|);
        SentMore(fixed, w, sent, now, query.Abs());
        now := now + w.latency(|sent|);
        sent := sent + [query.Abs()];
        ok := Accepts(x);
        if ok { return; }
        Requery(query, shared, x);
        now := Pause(w, now, x);
      }
    }
  }
}
