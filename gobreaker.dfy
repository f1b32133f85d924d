/** The part of the `sony/gobreaker` circuit breaker that the weather service relies on.

    A breaker is Closed, when `Execute` invokes the operation and counts the outcome, or Open,
    when `Execute` fails fast with `ErrOpenState` without invoking it. A Closed breaker asks its
    `ReadyToTrip` predicate after every failure, with the counts that include that failure; when
    the predicate holds, the breaker opens and starts a new generation with zeroed counts.
    `ReadyToTrip` is the closure src/main.go installs on both breakers, given by its two
    thresholds.
    The operation is an oracle: `Some(v)` for the value it returns, `None` for an error. */
module Gobreaker {
  import opened Wrappers

  datatype State = Closed | Open

  /** The counts of the current generation (gobreaker's `Counts`, without the consecutive runs,
      which no predicate of this service reads). */
  datatype Counts = Counts(requests: nat, totalSuccesses: nat, totalFailures: nat)
  {
    /** Every counted request has finished as a success or a failure. */
    predicate Tallied() {
      totalSuccesses + totalFailures == requests
    }

    /** The counts once one more request has been made and has failed. */
    function AfterFailure(): (c: Counts)
      ensures Tallied() ==> c.Tallied()
      ensures c.requests > 0 && c.totalFailures > 0
    {
      Counts(requests + 1, totalSuccesses, totalFailures + 1)
    }

    /** The counts once one more request has been made and has succeeded. */
    function AfterSuccess(): (c: Counts)
      ensures Tallied() ==> c.Tallied()
      ensures c.requests > 0 && c.totalFailures == totalFailures
    {
      Counts(requests + 1, totalSuccesses + 1, totalFailures)
    }
  }


  /** For a positive denominator, a quotient reaches a bound exactly when the numerator reaches
      the bound times the denominator. */
  lemma QuotientAtLeast(f: real, r: real, bound: real)
    requires r > 0.0
    ensures f / r >= bound <==> f >= bound * r
  {
    var q := f / r;
    assert q * r == f;
    assert (q - bound) * r == f - bound * r;
    if q >= bound {
      assert (q - bound) * r >= 0.0;
    } else {
      assert (bound - q) * r > 0.0;
    }
  }

  /** The `ReadyToTrip` closure every breaker of the service is built with: at least
      `minRequests` requests and a failure ratio of at least `failureRatio`, both inclusive.
      The ratio is a float64 quotient: failures/0 is +Inf (which reaches any ratio) when there
      are failures, and 0/0 is NaN (which reaches none). The result is stated without division. */
  function FailureRatioReached(counts: Counts, minRequests: nat, failureRatio: real): (trip: bool)
    ensures trip <==>
      && counts.requests >= minRequests
      && if counts.requests == 0 then counts.totalFailures > 0
         else counts.totalFailures as real >= failureRatio * counts.requests as real
  {
    && counts.requests >= minRequests
    && if counts.requests == 0 then counts.totalFailures > 0
       else
         QuotientAtLeast(counts.totalFailures as real, counts.requests as real, failureRatio);
         counts.totalFailures as real / counts.requests as real >= failureRatio
  }

  /** gobreaker's `Settings`: the breaker's name and the thresholds its `ReadyToTrip` closure
      was built with. */
  datatype Settings = Settings(name: string, minRequests: nat, failureRatio: real)
  {
    predicate ReadyToTrip(counts: Counts) {
      FailureRatioReached(counts, minRequests, failureRatio)
    }
  }

  datatype ExecError = ErrOpenState | ErrOperation

  datatype ExecResult<T> = Ok(value: T) | Err(error: ExecError)

  /** What one call of `Execute` did: the breaker afterwards, the result handed back to the
      caller, and whether the operation was invoked. */
  datatype Executed<T> = Executed(next: Breaker, result: ExecResult<T>, invoked: bool)

  datatype Breaker = Breaker(settings: Settings, state: State, counts: Counts)
  {
    /** Counts always tally, and a breaker that has just opened starts from zero. */
    ghost predicate Valid() {
      counts.Tallied() && (state == Open ==> counts == Counts(0, 0, 0))
    }

    /** `Execute(op)`, where `op` is what the operation would return if invoked. */
    function Execute<T>(op: Option<T>): (r: Executed<T>)
      ensures r.next.settings == settings
      ensures r.invoked <==> state == Closed
      ensures state == Open ==> r.next == this && r.result == Err(ErrOpenState)
      ensures r.result.Ok? <==> r.invoked && op.Some?
      ensures r.result.Ok? ==> r.result.value == op.value
      ensures r.next.state == Open <==>
        state == Open || (op.None? && settings.ReadyToTrip(counts.AfterFailure()))
      ensures state == Closed && op.Some? ==> r.next.counts == counts.AfterSuccess()
      ensures state == Closed && op.None? && r.next.state == Closed ==> r.next.counts == counts.AfterFailure()
      ensures state == Closed && r.next.state == Open ==> r.next.counts == Counts(0, 0, 0)
      ensures Valid() ==> r.next.Valid()
    {
      match state
      case Open => Executed(this, Err(ErrOpenState), false)
      case Closed =>
        match op
        case Some(v) => Executed(this.(counts := counts.AfterSuccess()), Ok(v), true)
        case None =>
          var failed := counts.AfterFailure();
          if settings.ReadyToTrip(failed) then
            Executed(this.(state := Open, counts := Counts(0, 0, 0)), Err(ErrOperation), true)
          else
            Executed(this.(counts := failed), Err(ErrOperation), true)
    }
  }

  /** `NewCircuitBreaker`: a Closed breaker with zero counts. */
  function NewCircuitBreaker(settings: Settings): (b: Breaker)
    ensures b.state == Closed && b.settings == settings && b.counts == Counts(0, 0, 0)
  {
    Breaker(settings, Closed, Counts(0, 0, 0))
  }

  /** A new breaker is consistent. (Kept apart from `NewCircuitBreaker`'s contract: the
      validity of a literal breaker is costly to carry into every caller.) */
  lemma NewBreakerIsValid(settings: Settings)
    ensures NewCircuitBreaker(settings).Valid()
  {
  }

  /** The breaker after executing the operations of `ops`, in order. */
  function Drive<T>(b: Breaker, ops: seq<Option<T>>): (r: Breaker)
    ensures r.settings == b.settings
    decreases |ops|
  {
    if ops == [] then b
    else Drive(b.Execute(ops[0]).next, ops[1..])
  }

  /** A Closed breaker that serves a success counts it and stays Closed. */
  lemma ClosedSuccess<T>(b: Breaker, v: T)
    requires b.state == Closed
    ensures b.Execute(Some(v)).next == b.(counts := b.counts.AfterSuccess())
  {
  }

  /** A Closed breaker that serves a failure counts it, and opens with zeroed counts exactly
      when the new counts make `ReadyToTrip` hold. */
  lemma ClosedFailure<T>(b: Breaker)
    requires b.state == Closed
    ensures b.Execute<T>(None).next ==
      if b.settings.ReadyToTrip(b.counts.AfterFailure()) then b.(state := Open, counts := Counts(0, 0, 0))
      else b.(counts := b.counts.AfterFailure())
  {
  }

  /** However many calls a breaker serves, its counts keep tallying and it only ever opens with
      a fresh generation. */
  lemma {:induction false} DriveKeepsValid<T>(b: Breaker, ops: seq<Option<T>>)
    requires b.Valid()
    ensures Drive(b, ops).Valid()
    decreases |ops|
  {
    if ops != [] {
      DriveKeepsValid(b.Execute(ops[0]).next, ops[1..]);
    }
  }

  /** Only a failure can open a breaker; a run of successes keeps a Closed breaker Closed and
      counts each of them. */
  lemma {:induction false} SuccessesKeepClosed<T>(b: Breaker, ops: seq<Option<T>>)
    requires b.state == Closed
    requires forall i | 0 <= i < |ops| :: ops[i].Some?
    ensures Drive(b, ops).state == Closed
    ensures Drive(b, ops).counts ==
      Counts(b.counts.requests + |ops|, b.counts.totalSuccesses + |ops|, b.counts.totalFailures)
    decreases |ops|
  {
    if ops != [] {
      SuccessesKeepClosed(b.Execute(ops[0]).next, ops[1..]);
    }
  }

  /** An Open breaker stays Open and unchanged however many calls arrive, and invokes none of
      them. */
  lemma {:induction false} OpenStaysOpen<T>(b: Breaker, ops: seq<Option<T>>)
    requires b.state == Open
    ensures Drive(b, ops) == b
    ensures forall op: Option<T> :: !Drive(b, ops).Execute(op).invoked
    decreases |ops|
  {
    if ops != [] {
      OpenStaysOpen(b, ops[1..]);
    }
  }

  /** The breaker object, whose state and counts `Execute` updates in place. */
  class CircuitBreaker {
    const settings: Settings
    var state: State
    var counts: Counts

    function Model(): Breaker
      reads this
    {
      Breaker(settings, state, counts)
    }

    constructor (settings: Settings)
      ensures this.settings == settings && state == Closed && counts == Counts(0, 0, 0)
      ensures Model().Valid()
    {
      this.settings := settings;
      state := Closed;
      counts := Counts(0, 0, 0);
    }

    /** Runs the operation through the breaker: fails fast when Open, otherwise invokes it,
        records the outcome and, after a failure, opens when `ReadyToTrip` holds. */
    method Execute<T>(op: Option<T>) returns (result: ExecResult<T>, invoked: bool)
      modifies this
      ensures Model() == old(Model()).Execute(op).next
      ensures result == old(Model()).Execute(op).result
      ensures invoked == old(Model()).Execute(op).invoked
      ensures old(Model().Valid()) ==> Model().Valid()
    {
      if state == Open {
        return Err(ErrOpenState), false;
      }
      invoked := true;
      counts := Counts(counts.requests + 1, counts.totalSuccesses, counts.totalFailures);
      if op.Some? {
        counts := counts.(totalSuccesses := counts.totalSuccesses + 1);
        result := Ok(op.value);
      } else {
        counts := counts.(totalFailures := counts.totalFailures + 1);
        result := Err(ErrOperation);
        if settings.ReadyToTrip(counts) {
          state := Open;
          counts := Counts(0, 0, 0);
        }
      }
    }
  }
}
