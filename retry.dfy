/**
 * The retry loop every hosting-API request goes through (`fetchWithRetry`).
 * The network is not modelled: a request is described by the outcome of each
 * attempt, `outcome(i)` being what the i-th attempt (counting from 0) sees.
 * A 403 response raises the rate-limit error inside the same `try` as every
 * other failure, so it is retried like them.
 */
module FetchRetry {
  import opened Wrappers
  import opened Text

  /** What one attempt sees: the transport threw, or a response arrived with a
      status, a status text, the rate-limit reset time (already rendered as
      local time) and a body that parses as JSON or fails with a message. */
  datatype Attempt<T> =
    | TransportFailure(reason: string)
    | Response(status: int, statusText: string, rateLimitReset: string, body: Result<T, string>)

  /** The errors a request can end with. */
  datatype FetchError =
    | RateLimited(resetsAt: string)
    | ApiError(status: int, statusText: string)
    | TransportError(reason: string)
    | MalformedJson(reason: string)

  /** The `message` of the JavaScript Error each kind of failure throws. */
  function Message(e: FetchError): string {
    match e
    case RateLimited(t) => "Rate limit exceeded. Resets at " + t
    case ApiError(s, txt) => "GitHub API error: " + IntToString(s) + " " + txt
    case TransportError(reason) => reason
    case MalformedJson(reason) => reason
  }

  /** `response.ok`: a 2xx status. */
  predicate IsOk(status: int) {
    200 <= status <= 299
  }

  /** The number of attempts every caller asks for (the parameter's default). */
  const DefaultRetries: nat := 3

  /** The delay before the attempt after failed attempt `i`, in milliseconds. */
  function Backoff(i: nat): nat {
    1000 * (i + 1)
  }

  /** The body of the `try`: 403 first, then any other non-ok status, then the JSON body. */
  function Classify<T>(a: Attempt<T>): (r: Result<T, FetchError>)
    ensures a.TransportFailure? ==> r == Failure(TransportError(a.reason))
    ensures a.Response? && a.status == 403 ==> r == Failure(RateLimited(a.rateLimitReset))
    ensures a.Response? && a.status != 403 && !IsOk(a.status) ==>
              r == Failure(ApiError(a.status, a.statusText))
    ensures a.Response? && IsOk(a.status) && a.body.Failure? ==> r == Failure(MalformedJson(a.body.error))
    ensures r.Success? <==> a.Response? && IsOk(a.status) && a.body.Success?
    ensures r.Success? ==> r.value == a.body.value
  {
    match a
    case TransportFailure(reason) => Failure(TransportError(reason))
    case Response(status, statusText, reset, body) =>
      if status == 403 then Failure(RateLimited(reset))
      else if !IsOk(status) then Failure(ApiError(status, statusText))
      else match body
        case Success(v) => Success(v)
        case Failure(reason) => Failure(MalformedJson(reason))
  }

  /** The delays slept after failed attempts `lo .. hi-1`, in order. */
  function Backoffs(lo: nat, hi: nat): seq<nat>
    decreases hi
  {
    if hi <= lo then [] else Backoffs(lo, hi - 1) + [Backoff(hi - 1)]
  }

  lemma {:induction false} BackoffsCons(lo: nat, hi: nat)
    requires lo < hi
    ensures [Backoff(lo)] + Backoffs(lo + 1, hi) == Backoffs(lo, hi)
    decreases hi
  {
    if lo + 1 < hi {
      BackoffsCons(lo, hi - 1);
    }
  }

  /** There are `hi - lo` delays, the k-th being `Backoff(lo + k)`. */
  lemma {:induction false} BackoffsAt(lo: nat, hi: nat)
    requires lo <= hi
    ensures |Backoffs(lo, hi)| == hi - lo
    ensures forall k :: 0 <= k < hi - lo ==> Backoffs(lo, hi)[k] == Backoff(lo + k)
    decreases hi
  {
    if lo < hi {
      BackoffsAt(lo, hi - 1);
    }
  }

  /** What a call observably does: its result, how many attempts it made and
      the delays it slept between them. */
  datatype Trace<T> = Trace(result: Result<T, FetchError>, attempts: nat, delays: seq<nat>)

  /** The loop from attempt `i` on. The first successful attempt ends it with its
      value; a failure at the last allowed attempt ends it with that failure; any
      other failure sleeps `Backoff(i)` and tries again. */
  function RetryFrom<T>(outcome: nat -> Attempt<T>, retries: nat, i: nat): Trace<T>
    requires i < retries
    decreases retries - i
  {
    match Classify(outcome(i))
    case Success(v) => Trace(Success(v), i + 1, [])
    case Failure(e) =>
      if i == retries - 1 then Trace(Failure(e), retries, [])
      else
        var rest := RetryFrom(outcome, retries, i + 1);
        Trace(rest.result, rest.attempts, [Backoff(i)] + rest.delays)
  }

  /** The loop from attempt `i` makes at least one and at most the remaining
      attempts; every attempt but the last failed; the result is that of the
      last attempt; it gives up only after the last allowed attempt; and it
      sleeps the backoff of each failed attempt but the last, in order. */
  lemma {:induction false} RetryFromSpec<T>(outcome: nat -> Attempt<T>, retries: nat, i: nat)
    requires i < retries
    ensures var t := RetryFrom(outcome, retries, i);
      && i < t.attempts <= retries
      && (forall j :: i <= j < t.attempts - 1 ==> Classify(outcome(j)).Failure?)
      && t.result == Classify(outcome(t.attempts - 1))
      && (t.result.Failure? ==> t.attempts == retries)
      && t.delays == Backoffs(i, t.attempts - 1)
    decreases retries - i
  {
    if Classify(outcome(i)).Failure? && i < retries - 1 {
      RetryFromSpec(outcome, retries, i + 1);
      BackoffsCons(i, RetryFrom(outcome, retries, i + 1).attempts - 1);
    }
  }

  /** One step of the loop, as the imperative version takes it. */
  lemma RetryUnfold<T>(outcome: nat -> Attempt<T>, retries: nat, i: nat)
    requires i < retries
    ensures Classify(outcome(i)).Success? ==>
              RetryFrom(outcome, retries, i) == Trace(Classify(outcome(i)), i + 1, [])
    ensures Classify(outcome(i)).Failure? && i == retries - 1 ==>
              RetryFrom(outcome, retries, i) == Trace(Classify(outcome(i)), retries, [])
    ensures Classify(outcome(i)).Failure? && i < retries - 1 ==>
              var t := RetryFrom(outcome, retries, i + 1);
              RetryFrom(outcome, retries, i) == Trace(t.result, t.attempts, [Backoff(i)] + t.delays)
  {
  }

  /** `fetchWithRetry(url, retries)` as a function of the attempt outcomes. */
  function Retry<T>(outcome: nat -> Attempt<T>, retries: nat): Trace<T>
    requires retries > 0
  {
    RetryFrom(outcome, retries, 0)
  }

  /** The call returns the value of the first successful attempt, and only if one
      of the first `retries` attempts succeeds. */
  lemma RetrySucceedsIffSomeAttemptSucceeds<T>(outcome: nat -> Attempt<T>, retries: nat)
    requires retries > 0
    ensures Retry(outcome, retries).result.Success?
        <==> exists j :: 0 <= j < retries && Classify(outcome(j)).Success?
    ensures Retry(outcome, retries).result.Success? ==>
              exists j :: 0 <= j < retries
                       && Classify(outcome(j)) == Retry(outcome, retries).result
                       && forall k :: 0 <= k < j ==> Classify(outcome(k)).Failure?
  {
    RetryFromSpec(outcome, retries, 0);
    var t := Retry(outcome, retries);
    if t.result.Success? {
      assert Classify(outcome(t.attempts - 1)).Success?;
    } else {
      assert forall j :: 0 <= j < retries ==> Classify(outcome(j)).Failure?;
    }
  }

  /** When every attempt fails the call rethrows the error of the last attempt,
      after `retries` attempts and the delays 1000, 2000, ... ms, none after the last. */
  lemma RetryExhausted<T>(outcome: nat -> Attempt<T>, retries: nat)
    requires retries > 0
    requires forall j :: 0 <= j < retries ==> Classify(outcome(j)).Failure?
    ensures Retry(outcome, retries).result == Classify(outcome(retries - 1))
    ensures Retry(outcome, retries).attempts == retries
    ensures Retry(outcome, retries).delays == seq(retries - 1, k => 1000 * (k + 1))
  {
    RetryFromSpec(outcome, retries, 0);
    var t := Retry(outcome, retries);
    assert t.result.Failure?;
    BackoffsAt(0, retries - 1);
  }

  /** A 403 does not end the call early: with the default three attempts, a
      rate-limited first attempt followed by a good response returns that response,
      after two attempts and one delay of 1000 ms. */
  lemma RateLimitIsRetried<T>(outcome: nat -> Attempt<T>, v: T)
    requires outcome(0).Response? && outcome(0).status == 403
    requires Classify(outcome(1)) == Success(v)
    ensures Retry(outcome, DefaultRetries) == Trace(Success(v), 2, [1000])
  {
    assert RetryFrom(outcome, 3, 1) == Trace(Success(v), 2, []);
  }
}
