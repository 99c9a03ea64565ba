/**
 * `HTTPClient`: the authentication headers a request carries, and the
 * bounded retry loop with exponential back-off that sends it.
 *
 * The transport is abstract: `send(h, k)` is what attempt `k` (counted
 * from 0) with headers `h` comes back with.  Sleeping is recorded, not
 * performed: the loop returns the back-off delays it would sleep, in order.
 */
module HttpClient {
  import opened Wrappers
  import opened PyValue

  /** What a request is signed with. */
  datatype Headers =
    | AkSkHeaders(ak: Value, sk: Value, region: Value, service: Value)
    | TokenHeaders(iamEndpoint: Value, domainName: Value, username: Value, password: Value, projectId: Value)
    | NoHeaders

  /** The rule that picks the headers (the same for `get` and `post`). */
  function ChooseHeaders(authType: Value, ak: Value, sk: Value, iamEndpoint: Value, domainName: Value,
                         username: Value, password: Value, projectId: Value, region: Value, service: Value): (h: Headers)
    ensures h.AkSkHeaders? <==>
              authType == Str("aksk") && Truthy(ak) && Truthy(sk) && Truthy(region) && Truthy(service)
    ensures h.TokenHeaders? <==>
              authType == Str("token") && Truthy(iamEndpoint) && Truthy(domainName) && Truthy(username) && Truthy(password)
    ensures h.AkSkHeaders? ==> h == AkSkHeaders(ak, sk, region, service)
    ensures h.TokenHeaders? ==> h == TokenHeaders(iamEndpoint, domainName, username, password, projectId)
  {
    if authType == Str("aksk") && Truthy(ak) && Truthy(sk) && Truthy(region) && Truthy(service) then
      AkSkHeaders(ak, sk, region, service)
    else if authType == Str("token") && Truthy(iamEndpoint) && Truthy(domainName) && Truthy(username) && Truthy(password) then
      TokenHeaders(iamEndpoint, domainName, username, password, projectId)
    else NoHeaders
  }

  /** A response body: its JSON value, or `None` when `response.json()` would raise. */
  datatype Response = Response(json: Option<Value>)

  /** The exception an attempt raised; `id` tells one failure from another. */
  datatype Failure =
    | RequestException(id: nat)   // `requests.exceptions.RequestException`, HTTP error statuses included
    | OtherException(id: nat)

  /** How one attempt ends. */
  datatype Outcome = Success(response: Response) | Fail(failure: Failure)

  /** How a call ends: a response, `None` (the loop ran zero times) or an exception. */
  datatype CallResult = Returned(response: Response) | NoResponse | Raised(failure: Failure)

  /** A call's result, the attempts it made and the delays it slept between them. */
  datatype Trace = Trace(result: CallResult, attempts: nat, sleeps: seq<nat>)

  function Pow2(k: nat): (r: nat)
    ensures r >= 1
  {
    if k == 0 then 1 else 2 * Pow2(k - 1)
  }

  /** The delays slept after failed attempts `k` .. `j - 1`: `2^k, ..., 2^(j-1)`. */
  function Backoff(k: nat, j: nat): (r: seq<nat>)
    requires k <= j
    ensures |r| == j - k
    decreases j - k
  {
    if k == j then [] else [Pow2(k)] + Backoff(k + 1, j)
  }

  /** The retry loop from attempt `k` on. */
  function Retry(send: (Headers, nat) -> Outcome, h: Headers, retries: int, k: nat): (t: Trace)
    ensures k >= retries ==> t == Trace(NoResponse, 0, [])
    decreases if k < retries then retries - k else 0
  {
    if k >= retries then Trace(NoResponse, 0, [])
    else match send(h, k)
      case Success(resp) => Trace(Returned(resp), 1, [])
      case Fail(f) =>
        if f.RequestException? && k < retries - 1 then
          var rest := Retry(send, h, retries, k + 1);
          Trace(rest.result, rest.attempts + 1, [Pow2(k)] + rest.sleeps)
        else Trace(Raised(f), 1, [])
  }

  /** One attempt of the loop: return its response, retry after `2^k` seconds, or raise. */
  lemma RetryUnfold(send: (Headers, nat) -> Outcome, h: Headers, retries: int, k: nat)
    requires k < retries
    ensures send(h, k).Success? ==> Retry(send, h, retries, k) == Trace(Returned(send(h, k).response), 1, [])
    ensures send(h, k).Fail? && send(h, k).failure.RequestException? && k < retries - 1 ==>
              var rest := Retry(send, h, retries, k + 1);
              Retry(send, h, retries, k) == Trace(rest.result, rest.attempts + 1, [Pow2(k)] + rest.sleeps)
    ensures send(h, k).Fail? && !(send(h, k).failure.RequestException? && k < retries - 1) ==>
              Retry(send, h, retries, k) == Trace(Raised(send(h, k).failure), 1, [])
  {
  }

  /** A retried attempt moves its back-off delay from what is left of the loop to what was slept. */
  lemma RetryAdvance(send: (Headers, nat) -> Outcome, h: Headers, retries: int, attempt: nat, sleeps: seq<nat>)
    requires attempt < retries - 1
    requires send(h, attempt).Fail? && send(h, attempt).failure.RequestException?
    requires var rest := Retry(send, h, retries, attempt);
             Retry(send, h, retries, 0) == Trace(rest.result, attempt + rest.attempts, sleeps + rest.sleeps)
    ensures var rest := Retry(send, h, retries, attempt + 1);
            Retry(send, h, retries, 0) == Trace(rest.result, attempt + 1 + rest.attempts, (sleeps + [Pow2(attempt)]) + rest.sleeps)
  {
    RetryUnfold(send, h, retries, attempt);
    var rest := Retry(send, h, retries, attempt + 1);
    assert sleeps + ([Pow2(attempt)] + rest.sleeps) == (sleeps + [Pow2(attempt)]) + rest.sleeps;
  }

  /** Every attempt in `k .. j - 1` failed with a `RequestException`. */
  predicate RequestFailures(send: (Headers, nat) -> Outcome, h: Headers, k: nat, j: nat) {
    forall i :: k <= i < j ==> send(h, i).Fail? && send(h, i).failure.RequestException?
  }

  /** A returned response or a raised exception is the outcome of the last attempt made. */
  lemma {:induction false} RetryLast(send: (Headers, nat) -> Outcome, h: Headers, retries: int, k: nat)
    ensures var t := Retry(send, h, retries, k);
            (t.result.Returned? ==> t.attempts >= 1 && send(h, k + t.attempts - 1) == Success(t.result.response))
            && (t.result.Raised? ==> t.attempts >= 1 && send(h, k + t.attempts - 1) == Fail(t.result.failure))
    decreases if k < retries then retries - k else 0
  {
    if k < retries && send(h, k).Fail? && send(h, k).failure.RequestException? && k < retries - 1 {
      RetryLast(send, h, retries, k + 1);
    }
  }

  /** Retryable failures from `k` up to `j` only add attempts and back-off delays. */
  lemma {:induction false} RetrySkips(send: (Headers, nat) -> Outcome, h: Headers, retries: int, k: nat, j: nat)
    requires k <= j < retries
    requires RequestFailures(send, h, k, j)
    ensures var t := Retry(send, h, retries, k);
            var u := Retry(send, h, retries, j);
            t == Trace(u.result, u.attempts + (j - k), Backoff(k, j) + u.sleeps)
    decreases j - k
  {
    if k < j {
      RetrySkips(send, h, retries, k + 1, j);
      RetryUnfold(send, h, retries, k);
      var u := Retry(send, h, retries, j);
      assert [Pow2(k)] + (Backoff(k + 1, j) + u.sleeps) == Backoff(k, j) + u.sleeps;
    }
  }

  /** The first successful attempt's response is returned, after `2^0 .. 2^(j-1)` seconds of back-off. */
  lemma FirstSuccess(send: (Headers, nat) -> Outcome, h: Headers, retries: int, j: nat)
    requires j < retries
    requires RequestFailures(send, h, 0, j)
    requires send(h, j).Success?
    ensures Retry(send, h, retries, 0) == Trace(Returned(send(h, j).response), j + 1, Backoff(0, j))
  {
    RetrySkips(send, h, retries, 0, j);
    assert Backoff(0, j) + [] == Backoff(0, j);
  }

  /** When every attempt fails, all `retries` are made and the last attempt's exception is re-raised. */
  lemma AllAttemptsFail(send: (Headers, nat) -> Outcome, h: Headers, retries: int)
    requires retries >= 1
    requires RequestFailures(send, h, 0, retries)
    ensures Retry(send, h, retries, 0) == Trace(Raised(send(h, retries - 1).failure), retries, Backoff(0, retries - 1))
  {
    RetrySkips(send, h, retries, 0, retries - 1);
    assert Backoff(0, retries - 1) + [] == Backoff(0, retries - 1);
  }

  /** Any other exception is not retried: it propagates from the attempt that raised it. */
  lemma OtherExceptionPropagates(send: (Headers, nat) -> Outcome, h: Headers, retries: int, j: nat)
    requires j < retries
    requires RequestFailures(send, h, 0, j)
    requires send(h, j).Fail? && send(h, j).failure.OtherException?
    ensures Retry(send, h, retries, 0) == Trace(Raised(send(h, j).failure), j + 1, Backoff(0, j))
  {
    RetrySkips(send, h, retries, 0, j);
    assert Backoff(0, j) + [] == Backoff(0, j);
  }

  /** With the default of three retries, a call that keeps failing sleeps 1 s and then 2 s. */
  lemma DefaultBackoff(send: (Headers, nat) -> Outcome, h: Headers)
    requires RequestFailures(send, h, 0, 3)
    ensures Retry(send, h, 3, 0).sleeps == [1, 2]
    ensures Retry(send, h, 3, 0).attempts == 3
  {
    AllAttemptsFail(send, h, 3);
    assert Backoff(0, 2) == [Pow2(0)] + ([Pow2(1)] + []);
  }

  /**
   * At most `retries` attempts, none at all when `retries <= 0` (the call
   * then returns `None`), and exactly one delay between consecutive
   * attempts: none after the last.
   */
  lemma {:induction false} AttemptBounds(send: (Headers, nat) -> Outcome, h: Headers, retries: int, k: nat)
    ensures var t := Retry(send, h, retries, k);
            (k >= retries ==> t == Trace(NoResponse, 0, []))
            && (k < retries ==> 1 <= t.attempts <= retries - k && |t.sleeps| == t.attempts - 1 && !t.result.NoResponse?)
    decreases if k < retries then retries - k else 0
  {
    if k < retries && send(h, k).Fail? && send(h, k).failure.RequestException? && k < retries - 1 {
      AttemptBounds(send, h, retries, k + 1);
    }
  }

  class HttpClient {
    const timeout: int
    const retries: int

    /** `HTTPClient(timeout=30, retries=3)`. */
    constructor(timeout: int := 30, retries: int := 3)
      ensures this.timeout == timeout && this.retries == retries
    {
      this.timeout := timeout;
      this.retries := retries;
    }

    /** The retry loop of `get` and `post` once the headers are chosen. */
    method Send(h: Headers, send: (Headers, nat) -> Outcome) returns (result: CallResult, attempts: nat, sleeps: seq<nat>)
      ensures Trace(result, attempts, sleeps) == Retry(send, h, retries, 0)
    {
      attempts := 0;
      sleeps := [];
      var attempt: nat := 0;
      while attempt < retries
        invariant attempts == attempt
        invariant var rest := Retry(send, h, retries, attempt);
                  Retry(send, h, retries, 0) == Trace(rest.result, attempt + rest.attempts, sleeps + rest.sleeps)
        decreases retries - attempt
      {
        var outcome := send(h, attempt);
        attempts := attempts + 1;
        match outcome {
          case Success(resp) =>
            RetryUnfold(send, h, retries, attempt);
            assert sleeps + [] == sleeps;
            return Returned(resp), attempts, sleeps;
          case Fail(f) =>
            if f.RequestException? && attempt < retries - 1 {
              RetryAdvance(send, h, retries, attempt, sleeps);
              sleeps := sleeps + [Pow2(attempt)];
            } else {
              RetryUnfold(send, h, retries, attempt);
              assert sleeps + [] == sleeps;
              return Raised(f), attempts, sleeps;
            }
        }
        attempt := attempt + 1;
      }
      assert sleeps + [] == sleeps;
      result := NoResponse;
    }

    /** `HTTPClient.get`: choose the headers, then send with retries. */
    method Get(authType: Value, ak: Value, sk: Value, iamEndpoint: Value, domainName: Value, username: Value,
               password: Value, projectId: Value, region: Value, service: Value, send: (Headers, nat) -> Outcome)
      returns (result: CallResult, headers: Headers, attempts: nat, sleeps: seq<nat>)
      ensures headers == ChooseHeaders(authType, ak, sk, iamEndpoint, domainName, username, password, projectId, region, service)
      ensures Trace(result, attempts, sleeps) == Retry(send, headers, retries, 0)
    {
      headers := ChooseHeaders(authType, ak, sk, iamEndpoint, domainName, username, password, projectId, region, service);
      result, attempts, sleeps := Send(headers, send);
    }

    /** `HTTPClient.post`: the same header rule and the same retry loop as `get`. */
    method Post(authType: Value, ak: Value, sk: Value, iamEndpoint: Value, domainName: Value, username: Value,
                password: Value, projectId: Value, region: Value, service: Value, send: (Headers, nat) -> Outcome)
      returns (result: CallResult, headers: Headers, attempts: nat, sleeps: seq<nat>)
      ensures headers == ChooseHeaders(authType, ak, sk, iamEndpoint, domainName, username, password, projectId, region, service)
      ensures Trace(result, attempts, sleeps) == Retry(send, headers, retries, 0)
    {
      headers := ChooseHeaders(authType, ak, sk, iamEndpoint, domainName, username, password, projectId, region, service);
      result, attempts, sleeps := Send(headers, send);
    }
  }
}
