/** The retry decorator around Graph calls. */
module Retry {
  import opened Collections

  // What an exception shows.

  const DEFAULT_RETRY_AFTER: nat := 60

  /** The text of a Retry-After header. */
  datatype Header = Seconds(seconds: nat) | NotANumber

  /** An httpx response hanging off an exception: its status, and its Retry-After header. */
  datatype Response = Response(status: Option<int>, retryAfter: Option<Header>)

  /** What the message text is matched for as a last resort. */
  datatype Hint = NoHint | LooksThrottled | LooksUnavailable | LooksLikeBadGateway

  /**
   * An exception.  `wrapped`: a GraphClientError, which always has a status code
   * attribute.  `status`: None without that attribute, Some(None) when its value is None.
   */
  datatype Failure = Failure(wrapped: bool, status: Option<Option<int>>, response: Option<Response>,
                             headers: Option<Header>, hint: Hint)

  function StatusCode(e: Failure): Option<int> {
    if e.status.Some? then e.status.value
    else if e.response.Some? && e.response.value.status.Some? then e.response.value.status
    else
      match e.hint
      case NoHint => None
      case LooksThrottled => Some(429)
      case LooksUnavailable => Some(503)
      case LooksLikeBadGateway => Some(502)
  }

  function RetryAfter(e: Failure): nat {
    if e.headers.Some? && e.headers.value.Seconds? then e.headers.value.seconds
    else if e.response.Some? && e.response.value.retryAfter.Some? && e.response.value.retryAfter.value.Seconds?
    then e.response.value.retryAfter.value.seconds
    else DEFAULT_RETRY_AFTER
  }

  predicate Throttled(e: Failure) {
    StatusCode(e) == Some(429)
  }

  predicate ServerError(e: Failure) {
    StatusCode(e).Some? && 500 <= StatusCode(e).value < 600
  }

  /** A client error other than throttling: permanent. */
  predicate Permanent(e: Failure) {
    StatusCode(e).Some? && 400 <= StatusCode(e).value < 500 && StatusCode(e).value != 429
  }

  // The loop.

  datatype Attempt<T> = Success(value: T) | Failed(failure: Failure)

  /** How the decorated call ends; `NothingToRaise` is the TypeError of raising None. */
  datatype Result<T> =
    | Returned(value: T)
    | RaisedThrottling
    | RaisedServerError(status: int)
    | RaisedSame(failure: Failure)
    | NothingToRaise

  function Pow2(n: nat): (p: nat)
    ensures p >= 1
  {
    if n == 0 then 1 else 2 * Pow2(n - 1)
  }

  /** The wait after a retried failure at attempt `n`. */
  function Pause(e: Failure, n: nat, base: real): real {
    if Throttled(e) then RetryAfter(e) as real else base * Pow2(n) as real
  }

  /** The final raise once the attempts are used up. */
  function GiveUp<T>(e: Failure): Result<T> {
    if Throttled(e) then RaisedThrottling
    else if ServerError(e) then RaisedServerError(StatusCode(e).value)
    else RaisedSame(e)
  }

  predicate Final<T>(a: Attempt<T>) {
    a.Success? || Permanent(a.failure)
  }

  function Ending<T>(a: Attempt<T>): Result<T>
    requires Final(a)
  {
    match a
    case Success(value) => Returned(value)
    case Failed(e) => RaisedSame(e)
  }

  /** The first attempt within `m` that ends the loop at once, or `m` if there is none. */
  ghost function FirstFinal<T>(outcomes: nat -> Attempt<T>, m: nat): (k: nat)
    ensures k <= m
    ensures k < m ==> Final(outcomes(k))
    ensures forall i :: 0 <= i < k ==> !Final(outcomes(i))
  {
    if m == 0 then 0
    else
      var k := FirstFinal(outcomes, m - 1);
      if k < m - 1 then k else if Final(outcomes(m - 1)) then m - 1 else m
  }

  /** How the decorated call ends. */
  ghost function Answered<T>(outcomes: nat -> Attempt<T>, m: nat): Result<T>
    requires m > 0
  {
    var k := FirstFinal(outcomes, m);
    if k < m then Ending(outcomes(k)) else GiveUp(outcomes(m - 1).failure)
  }

  ghost function CallsMade<T>(outcomes: nat -> Attempt<T>, m: nat): nat {
    var k := FirstFinal(outcomes, m);
    if k < m then k + 1 else m
  }

  /** The waiting done over the first `n` attempts, all of which failed and were retried. */
  ghost function TotalPause<T>(outcomes: nat -> Attempt<T>, n: nat, base: real): real
    requires forall i :: 0 <= i < n ==> outcomes(i).Failed?
  {
    if n == 0 then 0.0 else TotalPause(outcomes, n - 1, base) + Pause(outcomes(n - 1).failure, n - 1, base)
  }

  /**
   * `outcomes(n)` is what the n-th call would do.  At most `m` calls are made; the result
   * is that of the first success or permanent client error among them, else the m-th
   * failure is raised; and the waiting is that of the retried attempts and no more.
   */
  method CallWithRetry<T>(outcomes: nat -> Attempt<T>, m: nat, base: real)
    returns (result: Result<T>, calls: nat, waited: real)
    ensures calls == CallsMade(outcomes, m)
    ensures m == 0 ==> result == NothingToRaise && waited == 0.0
    ensures m > 0 ==> (
      && result == Answered(outcomes, m)
      && waited == TotalPause(outcomes, calls - 1, base))
  {
    calls, waited := 0, 0.0;
    while calls < m
      invariant calls <= m
      invariant forall i :: 0 <= i < calls ==> !Final(outcomes(i))
      invariant calls == m ==> m == 0
      invariant waited == TotalPause(outcomes, calls, base)
    {
      var attempt := calls;
      var outcome := outcomes(attempt);
      calls := calls + 1;
      if outcome.Success? {
        FinalIs(outcomes, m, attempt);
        return Returned(outcome.value), calls, waited;
      }
      var e := outcome.failure;
      var status := StatusCode(e);
      if status == Some(429) {
        if attempt < m - 1 {
          waited := waited + RetryAfter(e) as real;
          continue;
        }
        NoFinal(outcomes, m);
        return RaisedThrottling, calls, waited;
      }
      if status.Some? && 500 <= status.value < 600 {
        if attempt < m - 1 {
          waited := waited + base * Pow2(attempt) as real;
          continue;
        }
        NoFinal(outcomes, m);
        return RaisedServerError(status.value), calls, waited;
      }
      if status.Some? && 400 <= status.value < 500 {
        FinalIs(outcomes, m, attempt);
        return RaisedSame(e), calls, waited;
      }
      if attempt < m - 1 {
        waited := waited + base * Pow2(attempt) as real;
        continue;
      }
      NoFinal(outcomes, m);
      return RaisedSame(e), calls, waited;
    }
    return NothingToRaise, calls, waited;
  }

  lemma FinalIs<T>(outcomes: nat -> Attempt<T>, m: nat, k: nat)
    requires k < m && Final(outcomes(k))
    requires forall i :: 0 <= i < k ==> !Final(outcomes(i))
    ensures FirstFinal(outcomes, m) == k
  {
  }

  lemma NoFinal<T>(outcomes: nat -> Attempt<T>, m: nat)
    requires forall i :: 0 <= i < m ==> !Final(outcomes(i))
    ensures FirstFinal(outcomes, m) == m
  {
  }

  // What comes of it, by status codes.

  /** A failure with a code from 400 to 499 other than 429. */
  predicate Refused<T>(a: Attempt<T>) {
    a.Failed? && StatusCode(a.failure).Some? && 400 <= StatusCode(a.failure).value <= 499
    && StatusCode(a.failure).value != 429
  }

  /** The first `n` attempts fail in a way that is worth another try. */
  ghost predicate Retried<T>(outcomes: nat -> Attempt<T>, n: nat) {
    forall i :: 0 <= i < n ==> outcomes(i).Failed? && !Refused(outcomes(i))
  }

  /** A value is returned exactly if it is that of a success within the retries after failures worth retrying. */
  lemma ReturnsIff<T>(outcomes: nat -> Attempt<T>, m: nat, value: T)
    requires m > 0
    ensures Answered(outcomes, m) == Returned(value) <==>
      exists k :: 0 <= k < m && outcomes(k) == Success(value) && Retried(outcomes, k)
  {
    var k := FirstFinal(outcomes, m);
    if j :| 0 <= j < m && outcomes(j) == Success(value) && Retried(outcomes, j) {
      FinalIs(outcomes, m, j);
    }
    if k < m && outcomes(k) == Success(value) {
      assert Retried(outcomes, k);
    }
  }

  /**
   * After a permanent client error the call stops at once and raises it; after the last
   * retry it raises throttling for 429, a server error with its code for 500 to 599, and
   * anything else as it came.
   */
  lemma RaisesIs<T>(outcomes: nat -> Attempt<T>, m: nat)
    requires m > 0
    ensures forall k :: 0 <= k < m && Refused(outcomes(k)) && Retried(outcomes, k) ==>
      Answered(outcomes, m) == RaisedSame(outcomes(k).failure) && CallsMade(outcomes, m) == k + 1
    ensures Retried(outcomes, m) ==> (
      var last := outcomes(m - 1).failure;
      && CallsMade(outcomes, m) == m
      && (StatusCode(last) == Some(429) ==> Answered(outcomes, m) == RaisedThrottling)
      && (StatusCode(last).Some? && 500 <= StatusCode(last).value <= 599 ==>
            Answered(outcomes, m) == RaisedServerError(StatusCode(last).value))
      && (!(StatusCode(last).Some? && (StatusCode(last).value == 429 || 500 <= StatusCode(last).value <= 599)) ==>
            Answered(outcomes, m) == RaisedSame(last)))
  {
    forall k | 0 <= k < m && Refused(outcomes(k)) && Retried(outcomes, k)
      ensures Answered(outcomes, m) == RaisedSame(outcomes(k).failure) && CallsMade(outcomes, m) == k + 1
    {
      FinalIs(outcomes, m, k);
    }
    if Retried(outcomes, m) {
      NoFinal(outcomes, m);
    }
  }

  /** The seconds the server asked for: on the error itself, else on its response, else a minute. */
  lemma AskedFor(e: Failure)
    ensures var onError := e.headers.Some? && e.headers.value.Seconds?;
      var onResponse :=
        e.response.Some? && e.response.value.retryAfter.Some? && e.response.value.retryAfter.value.Seconds?;
      && (onError ==> RetryAfter(e) == e.headers.value.seconds)
      && (!onError && onResponse ==> RetryAfter(e) == e.response.value.retryAfter.value.seconds)
      && (!onError && !onResponse ==> RetryAfter(e) == 60)
  {
  }

  /** Where a status code comes from: the error's own attribute, else its response's, else its text. */
  lemma CodeIs(e: Failure)
    ensures e.status.Some? ==> StatusCode(e) == e.status.value
    ensures e.status.None? && e.response.Some? && e.response.value.status.Some? ==>
      StatusCode(e) == e.response.value.status
    ensures e.status.None? && (e.response.Some? ==> e.response.value.status.None?) ==>
      StatusCode(e) == match e.hint
        case NoHint => None
        case LooksThrottled => Some(429)
        case LooksUnavailable => Some(503)
        case LooksLikeBadGateway => Some(502)
  {
  }

  /**
   * The waiting, exactly: a retried attempt that was throttled is waited for as long as
   * the server asked, and any other twice as long as the attempt before it would have
   * been, starting from the base.
   */
  lemma WaitIsExact<T>(outcomes: nat -> Attempt<T>, n: nat, base: real)
    requires forall i :: 0 <= i <= n ==> outcomes(i).Failed?
    ensures TotalPause(outcomes, 0, base) == 0.0
    ensures var last := outcomes(n).failure;
      TotalPause(outcomes, n + 1, base) == TotalPause(outcomes, n, base) +
        if StatusCode(last) == Some(429) then RetryAfter(last) as real else base * Pow2(n) as real
    ensures Pow2(0) == 1 && Pow2(n + 1) == 2 * Pow2(n)
  {
  }

  /** Without throttling that adds up to a power of two less one. */
  lemma {:induction false} BackingOffDoubles<T>(outcomes: nat -> Attempt<T>, n: nat, base: real)
    requires forall i :: 0 <= i < n ==>
      outcomes(i).Failed? && StatusCode(outcomes(i).failure) != Some(429)
    ensures TotalPause(outcomes, n, base) == base * (Pow2(n) - 1) as real
  {
    if n > 0 {
      BackingOffDoubles(outcomes, n - 1, base);
      DoublingStep(base, n - 1);
    }
  }

  lemma DoublingStep(base: real, n: nat)
    ensures Pow2(n + 1) == 2 * Pow2(n)
    ensures base * (Pow2(n + 1) - 1) as real == base * (Pow2(n) - 1) as real + base * Pow2(n) as real
  {
    var p := Pow2(n);
    assert (Pow2(n + 1) - 1) as real == (p - 1) as real + p as real;
    Distribute(base, (p - 1) as real, p as real);
  }

  // How long it can take.

  /** The Retry-After values of the throttled ones among the first `n` attempts. */
  ghost function ThrottlePauses<T>(outcomes: nat -> Attempt<T>, n: nat): nat
    requires forall i :: 0 <= i < n ==> outcomes(i).Failed?
  {
    if n == 0 then 0
    else
      ThrottlePauses(outcomes, n - 1) +
      if Throttled(outcomes(n - 1).failure) then RetryAfter(outcomes(n - 1).failure) else 0
  }

  /** The most that backing off can add up to over `n` attempts. */
  function Budget(base: real, n: nat): real {
    base * (Pow2(n) - 1) as real
  }

  lemma BudgetStep(base: real, n: nat)
    requires base >= 0.0
    ensures Budget(base, n + 1) == Budget(base, n) + base * Pow2(n) as real
    ensures base * Pow2(n) as real >= 0.0
  {
    var p := Pow2(n);
    assert (Pow2(n + 1) - 1) as real == (p - 1) as real + p as real;
    Distribute(base, (p - 1) as real, p as real);
  }

  lemma {:induction false} BudgetGrows(base: real, n: nat, limit: nat)
    requires base >= 0.0 && n <= limit
    ensures Budget(base, n) <= Budget(base, limit)
  {
    if n < limit {
      BudgetGrows(base, n, limit - 1);
      BudgetStep(base, limit - 1);
    }
  }

  /** Back-off stays within the budget; throttling adds what the server asked for. */
  lemma {:induction false} PauseIsBounded<T>(outcomes: nat -> Attempt<T>, n: nat, base: real)
    requires base >= 0.0 && forall i :: 0 <= i < n ==> outcomes(i).Failed?
    ensures TotalPause(outcomes, n, base) <= Budget(base, n) + ThrottlePauses(outcomes, n) as real
  {
    if n > 0 {
      PauseIsBounded(outcomes, n - 1, base);
      BudgetStep(base, n - 1);
    }
  }

  lemma Distribute(a: real, b: real, c: real)
    ensures a * (b + c) == a * b + a * c
  {
  }

  /**
   * The whole decorated call, for every sequence of outcomes and `m >= 1`: it makes
   * between one and `m` calls, every one but the last a retryable failure, stops early
   * only at a success or a permanent error, and waits at most base * (2^(m-1) - 1) plus
   * the Retry-After values of the throttled attempts that were retried.
   */
  lemma RetryIsBounded<T>(outcomes: nat -> Attempt<T>, m: nat, base: real)
    requires m >= 1 && base >= 0.0
    ensures var calls := CallsMade(outcomes, m);
      && 1 <= calls <= m
      && (forall i :: 0 <= i < calls - 1 ==> outcomes(i).Failed? && !Permanent(outcomes(i).failure))
      && (calls < m ==> Final(outcomes(calls - 1)))
      && TotalPause(outcomes, calls - 1, base) <= Budget(base, m - 1) + ThrottlePauses(outcomes, calls - 1) as real
  {
    CallsEndAtTheFirstFinal(outcomes, m);
    PauseIsBounded(outcomes, CallsMade(outcomes, m) - 1, base);
    BudgetGrows(base, CallsMade(outcomes, m) - 1, m - 1);
  }

  lemma CallsEndAtTheFirstFinal<T>(outcomes: nat -> Attempt<T>, m: nat)
    requires m >= 1
    ensures 1 <= CallsMade(outcomes, m) <= m
    ensures forall i :: 0 <= i < CallsMade(outcomes, m) - 1 ==> !Final(outcomes(i))
    ensures CallsMade(outcomes, m) < m ==> Final(outcomes(CallsMade(outcomes, m) - 1))
  {
  }

  // Where the header goes.

  /** What a client method raises after catching an error of its own: the code survives, the header does not. */
  function Wrapped(e: Failure): Failure {
    Failure(true, Some(StatusCode(e)), None, None, e.hint)
  }

  /**
   * So a throttled call is waited for as the server asked only if its exception reaches
   * the decorator unwrapped, or the server asked for the default anyway.
   */
  lemma RetryAfterSurvivesIff(e: Failure)
    requires Throttled(e)
    ensures Throttled(Wrapped(e)) && RetryAfter(Wrapped(e)) == DEFAULT_RETRY_AFTER
    ensures RetryAfter(Wrapped(e)) == RetryAfter(e) <==> RetryAfter(e) == DEFAULT_RETRY_AFTER
  {
  }

  function WithText(e: Failure, hint: Hint): Failure {
    e.(hint := hint)
  }

  /**
   * The text of an error, documented as the last resort, matters exactly when neither the
   * error nor its response has a status attribute.  So an error a client method wrapped
   * without a code is never looked into and retried as transient, whatever its text says.
   */
  lemma TextDecidesIff(e: Failure)
    ensures (exists hint :: StatusCode(WithText(e, hint)) != StatusCode(e)) <==>
      e.status.None? && (e.response.Some? ==> e.response.value.status.None?)
    ensures e.status == Some(None) ==> !Throttled(e) && !ServerError(e) && !Permanent(e)
  {
    assert StatusCode(WithText(e, NoHint)) != StatusCode(WithText(e, LooksThrottled)) <==>
      e.status.None? && (e.response.Some? ==> e.response.value.status.None?);
  }
}
