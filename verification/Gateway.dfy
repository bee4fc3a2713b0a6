/** The retry loop of the gateway adapter (backend/packages/adapters/razorpay/gateway_adapter.py, _execute_request). */
module Gateway {

  /** What one HTTP request yields: a status, a connect/read timeout or connect error, or any other exception. */
  datatype Reply = Status(code: int) | NetworkError | OtherError

  datatype Final = Returned(code: int) | RaisedNetworkError | RaisedOtherError | FellThrough

  predicate RetryableStatus(code: int) {
    code in {408, 429, 500, 502, 503, 504}
  }

  predicate Retryable(r: Reply) {
    r.NetworkError? || (r.Status? && RetryableStatus(r.code))
  }

  function Delivered(r: Reply): Final {
    match r
    case Status(code) => Returned(code)
    case NetworkError => RaisedNetworkError
    case OtherError => RaisedOtherError
  }

  function Pow2(n: nat): nat {
    if n == 0 then 1 else 2 * Pow2(n - 1)
  }

  lemma {:induction false} Pow2Monotone(m: nat, n: nat)
    requires m <= n
    ensures 1 <= Pow2(m) <= Pow2(n)
  {
    if n > 0 {
      Pow2Monotone(if m == n then m - 1 else m, n - 1);
    }
  }

  /** Sends until a reply settles the call. `replies(i)` is what request i would get; sleep is in milliseconds. */
  method ExecuteRequest(maxRetries: int, isIdempotent: bool, isGet: bool, replies: nat -> Reply)
    returns (result: Final, requests: nat, sleptMs: nat)
    ensures result.FellThrough? <==> maxRetries < 0
    ensures maxRetries < 0 ==> requests == 0 && sleptMs == 0
    ensures maxRetries >= 0 ==>
      && 1 <= requests <= maxRetries + 1
      && result == Delivered(replies(requests - 1))
      && (forall i: nat | i < requests - 1 :: Retryable(replies(i)))
      && (forall i: nat | i < requests - 1 && replies(i).Status? :: replies(i).code in {408, 429, 500, 502, 503, 504})
      && sleptMs == 500 * (Pow2(requests - 1) - 1) <= 500 * (Pow2(maxRetries) - 1)
    ensures maxRetries >= 0 && !isIdempotent && !isGet ==> requests == 1
    ensures maxRetries >= 0 && Retryable(replies(requests - 1)) ==>
      (!isIdempotent && !isGet) || requests == maxRetries + 1
    ensures 1 <= requests <= maxRetries && (isIdempotent || isGet) ==>
      match replies(requests - 1)
      case Status(code) => code !in {408, 429, 500, 502, 503, 504}
      case NetworkError => false
      case OtherError => true
  {
    requests, sleptMs, result := 0, 0, FellThrough;
    var networkFailed := false;
    var attempt := 0;
    while attempt < maxRetries + 1
      invariant 0 <= attempt && (maxRetries >= 0 ==> attempt <= maxRetries) && (maxRetries < 0 ==> attempt == 0)
      invariant requests == attempt && sleptMs == 500 * (Pow2(attempt) - 1)
      invariant attempt > 0 ==> isIdempotent || isGet
      invariant forall i: nat | i < attempt :: Retryable(replies(i))
      invariant attempt == 0 ==> !networkFailed
    {
      requests := requests + 1;
      var reply := replies(attempt);
      Pow2Monotone(attempt, maxRetries);
      match reply {
        case Status(code) =>
          if code < 400 || code in {400, 401, 403, 404} {
            return Returned(code), requests, sleptMs;
          }
          if RetryableStatus(code) && (isIdempotent || isGet) {
            if attempt < maxRetries {
              sleptMs := sleptMs + 500 * Pow2(attempt);
              attempt := attempt + 1;
              continue;
            }
          }
          return Returned(code), requests, sleptMs;
        case NetworkError =>
          networkFailed := true;
          if attempt < maxRetries && (isIdempotent || isGet) {
            sleptMs := sleptMs + 500 * Pow2(attempt);
          } else {
            return RaisedNetworkError, requests, sleptMs;
          }
        case OtherError =>
          return RaisedOtherError, requests, sleptMs;
      }
      attempt := attempt + 1;
    }
    if networkFailed {
      result := RaisedNetworkError;
    }
  }
}
