/** The error chain that decides whether a failure is permanent: the wrappers of
    `pkg/server/pterodactyl.go` and of the readiness probe. */
module Errors {
  import opened Basics

  datatype Error =
    | Plain(text: string)            // no Unwrap, no Permanent
    | Wrapped(inner: Error)          // fmt.Errorf with %w, and redactedError
    | PermanentError(inner: Error)
    | Inconclusive(inner: Error)     // inconclusiveReadinessError

  /** The errors that repeated `Unwrap` visits. */
  function Chain(e: Error): seq<Error> {
    [e] + if e.Plain? then [] else Chain(e.inner)
  }

  /** `errors.As` for the interface with a `Permanent` method: the first in the chain. */
  function AsPermanent(e: Error): (f: Option<Error>)
    ensures f.Some? ==> (f.value == e || f.value < e) && (f.value.PermanentError? || f.value.Inconclusive?)
  {
    match e
    case Plain(_) => None
    case Wrapped(inner) => AsPermanent(inner)
    case PermanentError(_) => Some(e)
    case Inconclusive(_) => Some(e)
  }

  /** `IsPermanent`: the answer of the first `Permanent` method, which for the
      inconclusive wrapper asks again of what it wraps. */
  predicate IsPermanent(e: Error)
    decreases e
  {
    match AsPermanent(e)
    case None => false
    case Some(f) => if f.PermanentError? then true else IsPermanent(f.inner)
  }

  /** `backendReadinessInconclusive`. */
  predicate IsInconclusive(e: Error) {
    match e
    case Plain(_) => false
    case Inconclusive(_) => true
    case Wrapped(inner) => IsInconclusive(inner)
    case PermanentError(inner) => IsInconclusive(inner)
  }

  predicate IsPermanentError(e: Error) { e.PermanentError? }

  predicate IsInconclusiveError(e: Error) { e.Inconclusive? }

  /** Some error of the chain satisfies `p`. */
  predicate Occurs(e: Error, p: Error -> bool) {
    exists i | 0 <= i < |Chain(e)| :: p(Chain(e)[i])
  }

  predicate HasPermanent(e: Error) { Occurs(e, IsPermanentError) }

  predicate HasInconclusive(e: Error) { Occurs(e, IsInconclusiveError) }

  lemma ChainOf(e: Error, p: Error -> bool)
    ensures Occurs(e, p) <==> p(e) || (!e.Plain? && Occurs(e.inner, p))
  {
    if p(e) { assert p(Chain(e)[0]); }
    if !e.Plain? {
      var rest := Chain(e.inner);
      assert Chain(e) == [e] + rest;
      if i :| 0 <= i < |rest| && p(rest[i]) { assert p(Chain(e)[i + 1]); }
      if i :| 0 < i < |Chain(e)| && p(Chain(e)[i]) { assert p(rest[i - 1]); }
    }
  }

  /** An error is permanent exactly if its chain contains a `permanentError`, in
      front of, behind, or inside an inconclusive wrapper. */
  lemma {:induction false} PermanentIffInChain(e: Error)
    ensures IsPermanent(e) <==> HasPermanent(e)
    decreases e
  {
    ChainOf(e, IsPermanentError);
    if !e.Plain? { PermanentIffInChain(e.inner); }
  }

  lemma {:induction false} InconclusiveIffInChain(e: Error)
    ensures IsInconclusive(e) <==> HasInconclusive(e)
    decreases e
  {
    ChainOf(e, IsInconclusiveError);
    if !e.Plain? { InconclusiveIffInChain(e.inner); }
  }

  // ---- HTTP statuses ------------------------------------------------------------------

  const REQUEST_TIMEOUT := 408
  const TOO_MANY_REQUESTS := 429

  /** `markPermanent`; no error stays no error. */
  function MarkPermanent(e: Option<Error>): Option<Error> {
    match e
    case None => None
    case Some(inner) => Some(PermanentError(inner))
  }

  function ClassifyHTTPError(status: int, e: Option<Error>): Option<Error> {
    if status >= 400 && status < 500 && status != REQUEST_TIMEOUT && status != TOO_MANY_REQUESTS then MarkPermanent(e)
    else e
  }

  /** A refusal by the panel is permanent exactly for the client errors that a retry
      cannot cure, unless the error was permanent already; it stays an error, or none. */
  lemma RefusalIsPermanent(status: int, e: Option<Error>)
    ensures ClassifyHTTPError(status, e).Some? <==> e.Some?
    ensures e.Some? ==>
      (HasPermanent(ClassifyHTTPError(status, e).value) <==>
         HasPermanent(e.value) || (400 <= status <= 499 && status !in {408, 429}))
  {
    if e.Some? { ChainOf(PermanentError(e.value), IsPermanentError); }
  }

  // ---- The panel's readiness probe -------------------------------------------------------

  /** An answer of `Controller.Status`. */
  datatype Answer = State(state: PanelState) | Failure(error: Error)

  /** `PterodactylProbe.Probe`; `expired` is the context's error, if it has one. */
  function Probe(expired: Option<Error>, answer: Answer): Option<Error> {
    if expired.Some? then Some(Inconclusive(Wrapped(expired.value)))
    else
      match answer
      case Failure(e) => Some(Inconclusive(Wrapped(e)))
      case State(state) => if state.Running? then None else Some(Plain("not running"))
  }

  /** The probe succeeds on a Running answer alone; it confirms a failure on any other
      answer, and is inconclusive, as permanent as what the panel returned, without one. */
  lemma ProbeVerdicts(expired: Option<Error>, answer: Answer)
    ensures Probe(expired, answer).None? <==> expired.None? && answer == State(Running)
    ensures Probe(expired, answer).Some? ==>
      && (IsInconclusive(Probe(expired, answer).value) <==> expired.Some? || answer.Failure?)
      && (HasPermanent(Probe(expired, answer).value) <==>
            if expired.Some? then HasPermanent(expired.value) else answer.Failure? && HasPermanent(answer.error))
  {
    if Probe(expired, answer).Some? {
      var e := Probe(expired, answer).value;
      ChainOf(e, IsPermanentError);
      if e.Inconclusive? { ChainOf(e.inner, IsPermanentError); }
    }
  }
}
