/** `backendHealthFailures` and the loop of `runBackendHealthMonitor`. */
module HealthMonitor {
  import opened Basics
  import L = Lifecycle
  import Health

  class BackendHealthFailures {
    var generation: nat
    var count: nat

    function Abs(): L.Failures
      reads this
    {
      L.Failures(generation, count)
    }

    constructor ()
      ensures Abs() == L.NO_FAILURES
    {
      generation, count := 0, 0;
    }

    method Reset()
      modifies this
      ensures Abs() == L.NO_FAILURES
    {
      generation := 0;
      count := 0;
    }

    method Record(gen: nat) returns (n: nat)
      modifies this
      ensures Abs() == L.Record(old(Abs()), gen) && n == count
    {
      if generation != gen {
        generation := gen;
        count := 0;
      }
      count := count + 1;
      n := count;
    }
  }

  /** Observation `i` is the third confirmed failure in a row of one generation. */
  predicate ThirdFailure(seen: seq<L.Observation>, i: nat)
    requires i < |seen|
  {
    seen[i].Probed? && Health.ConfirmedRun(seen[..i + 1], seen[i].gen, HEALTH_FAILURE_THRESHOLD)
  }

  /** The counter is right: it counts the confirmed failures of its generation that
      end what was seen, and would have missed none. */
  predicate Counts(f: L.Failures, seen: seq<L.Observation>) {
    && Health.ConfirmedRun(seen, f.gen, f.count)
    && (seen != [] && seen[|seen| - 1].Probed? && seen[|seen| - 1].verdict.Confirmed? ==>
          f.gen == seen[|seen| - 1].gen && !Health.ConfirmedRun(seen, f.gen, f.count + 1))
  }

  /** The loop, up to its first `closeBackendGate`: it comes at the first third
      confirmed failure in a row, and otherwise never. */
  method FirstClosing(seen: seq<L.Observation>) returns (closing: Option<nat>)
    ensures closing.Some? ==> closing.value < |seen| && ThirdFailure(seen, closing.value)
    ensures forall i | 0 <= i < (if closing.Some? then closing.value else |seen|) :: !ThirdFailure(seen, i)
  {
    var failures := new BackendHealthFailures();
    var i := 0;
    while i < |seen|
      invariant 0 <= i <= |seen| && failures.count < HEALTH_FAILURE_THRESHOLD
      invariant Counts(failures.Abs(), seen[..i])
      invariant forall j | 0 <= j < i :: !ThirdFailure(seen, j)
    {
      ghost var before := failures.Abs();
      assert seen[..i + 1][..i] == seen[..i];
      if !seen[i].Probed? || !seen[i].verdict.Confirmed? {
        failures.Reset();
      } else {
        var n := failures.Record(seen[i].gen);
        CountsOn(before, seen[..i], seen[i]);
        assert seen[..i] + [seen[i]] == seen[..i + 1];
        if n >= HEALTH_FAILURE_THRESHOLD { return Some(i); }
      }
      i := i + 1;
    }
    closing := None;
  }

  lemma CountsOn(f: L.Failures, seen: seq<L.Observation>, next: L.Observation)
    requires Counts(f, seen) && next.Probed? && next.verdict.Confirmed?
    ensures Counts(L.Record(f, next.gen), seen + [next])
  {
    var f', all := L.Record(f, next.gen), seen + [next];
    assert forall i | 0 <= i < |seen| :: all[i] == seen[i];
  }
}
