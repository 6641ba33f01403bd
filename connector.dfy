/** The request handling every back-end connector shares
    (app/connectors/base.py): the normalised base URL, the bearer header and
    the bounded retry loop of `make_request`. The network is a parameter:
    `answer(k)` is what the `k`-th attempt of `session.request` gives. */
module Connector {
  import opened Common
  import opened Text

  /** `s.rstrip(c)` */
  function TrimEnd(s: string, c: char): (r: string)
    ensures |r| <= |s| && r == s[..|r|]
    ensures r == [] || r[|r| - 1] != c
    ensures forall k :: |r| <= k < |s| ==> s[k] == c
  {
    if s != [] && s[|s| - 1] == c then TrimEnd(s[..|s| - 1], c) else s
  }

  /** `s.lstrip(c)` */
  function TrimStart(s: string, c: char): (r: string)
    ensures |r| <= |s| && r == s[|s| - |r|..]
    ensures r == [] || r[0] != c
    ensures forall k :: 0 <= k < |s| - |r| ==> s[k] == c
  {
    if s != [] && s[0] == c then TrimStart(s[1..], c) else s
  }

  /** The `Authorization` header of every session. */
  function BearerHeader(token: string): string {
    "Bearer " + token
  }

  /** The URL of a request: the stored base, one "/", and the endpoint
      without its leading slashes. */
  function RequestUrl(base: string, endpoint: string): string {
    base + "/" + TrimStart(endpoint, '/')
  }

  /** Trimming twice is trimming once. */
  lemma {:induction false} TrimEndIdempotent(s: string, c: char)
    ensures TrimEnd(TrimEnd(s, c), c) == TrimEnd(s, c)
  {
    var r := TrimEnd(s, c);
    assert r == [] || r[|r| - 1] != c;
  }

  /** Extra slashes at the end of the base or at the start of the endpoint
      change nothing. */
  lemma {:induction false} SlashesIgnored(base: string, endpoint: string)
    ensures TrimEnd(base + "/", '/') == TrimEnd(base, '/')
    ensures RequestUrl(TrimEnd(base, '/'), "/" + endpoint) == RequestUrl(TrimEnd(base, '/'), endpoint)
  {
    var b := base + "/";
    assert b[..|b| - 1] == base;
    var e := "/" + endpoint;
    assert e[1..] == endpoint;
  }

  /** The base and the endpoint meet at exactly one slash: the base keeps its
      text up to its trailing slashes, and the path text after the slash
      does not start with another one. */
  lemma OneSlash(base: string, endpoint: string)
    ensures var b := TrimEnd(base, '/');
      var url := RequestUrl(b, endpoint);
      && |b| < |url| && url[..|b|] == base[..|b|] && url[|b|] == '/'
      && (|b| > 0 ==> url[|b| - 1] != '/')
      && (|url| > |b| + 1 ==> url[|b| + 1] != '/')
      && url[|b| + 1..] == endpoint[|endpoint| - (|url| - |b| - 1)..]
  {
    var b := TrimEnd(base, '/');
    var rest := TrimStart(endpoint, '/');
    var url := RequestUrl(b, endpoint);
    assert url == b + "/" + rest;
    Pieces(b, rest);
  }

  /** The two sides of a joining slash. */
  lemma Pieces(b: string, rest: string)
    ensures var url := b + "/" + rest;
      && url[..|b|] == b && url[|b|] == '/' && url[|b| + 1..] == rest
      && (|b| > 0 ==> url[|b| - 1] == b[|b| - 1])
      && (rest != [] ==> url[|b| + 1] == rest[0])
  {
  }

  /** A response to one attempt. */
  datatype Response = Response(status: int, text: string)

  /** What one attempt of `session.request` gives. */
  datatype Outcome =
    | Responded(status: int, text: string)
    | ConnectionFailed(error: string)
    | TimedOut(error: string)
    | RequestFailed(error: string)
    | Unexpected(error: string)

  /** `raise_for_status` raises for a client or a server error status. */
  predicate ErrorStatus(status: int) {
    400 <= status < 600
  }

  /** Only connection errors and time-outs are tried again. */
  predicate Retryable(o: Outcome) {
    o.ConnectionFailed? || o.TimedOut?
  }

  /** The messages of the `RuntimeError`s `make_request` raises. */
  function HttpErrorText(status: int, text: string): string {
    "HTTP " + IntToString(status) + ": " + text
  }

  function RequestFailedText(error: string): string {
    "Request failed: " + error
  }

  function UnexpectedText(error: string): string {
    "Unexpected error during request: " + error
  }

  /** How an attempt that is not tried again ends `make_request`: the
      response, or `RuntimeError` with its message. */
  function Settle(o: Outcome): (r: Result<Option<Response>, string>)
    requires !Retryable(o)
    ensures r.Ok? <==> o.Responded? && !ErrorStatus(o.status)
  {
    match o
    case Responded(status, text) =>
      if ErrorStatus(status) then Err(HttpErrorText(status, text))
      else Ok(Some(Response(status, text)))
    case RequestFailed(e) => Err(RequestFailedText(e))
    case Unexpected(e) => Err(UnexpectedText(e))
  }

  /** The message after the last connection error or time-out. */
  function Exhausted(maxRetries: int, error: string): string {
    "Request failed after " + IntToString(maxRetries) + " retries: " + error
  }

  /** What `make_request` returns or raises from attempt `attempt` on; with
      no attempt left the loop ends and the function returns None. */
  function Requested(answer: nat -> Outcome, maxRetries: int, attempt: nat): Result<Option<Response>, string>
    decreases maxRetries - attempt
  {
    if attempt > maxRetries || attempt == 0 then Ok(None)
    else
      var o := answer(attempt);
      if !Retryable(o) then Settle(o)
      else if attempt == maxRetries then Err(Exhausted(maxRetries, o.error))
      else Requested(answer, maxRetries, attempt + 1)
  }

  /** How many attempts are made from attempt `attempt` on. */
  function Attempts(answer: nat -> Outcome, maxRetries: int, attempt: nat): nat
    decreases maxRetries - attempt
  {
    if attempt > maxRetries || attempt == 0 then 0
    else if !Retryable(answer(attempt)) || attempt == maxRetries then 1
    else 1 + Attempts(answer, maxRetries, attempt + 1)
  }

  class BaseConnector {
    const baseUrl: string
    const authToken: string
    /** The `Authorization` header of the session. */
    const authorization: string

    /** `BaseConnector.__init__` */
    constructor (base: string, token: string)
      ensures baseUrl == TrimEnd(base, '/') && authToken == token
      ensures authorization == BearerHeader(token)
    {
      baseUrl := TrimEnd(base, '/');
      authToken := token;
      authorization := "Bearer " + token;
    }

    /** `make_request`: the URL it requests, what it returns or raises, and
        how many attempts it makes. Sleeping between attempts is left out. */
    method MakeRequest(endpoint: string, answer: nat -> Outcome, maxRetries: int)
      returns (url: string, r: Result<Option<Response>, string>, attempts: nat)
      ensures url == RequestUrl(baseUrl, endpoint)
      ensures r == Requested(answer, maxRetries, 1)
      ensures attempts == Attempts(answer, maxRetries, 1)
    {
      url := RequestUrl(baseUrl, endpoint);
      attempts := 0;
      var attempt := 1;
      ghost var decided := Requested(answer, maxRetries, attempt);
      ghost var total := Attempts(answer, maxRetries, attempt);
      while attempt <= maxRetries
        invariant attempt >= 1 && attempts == attempt - 1
        invariant decided == Requested(answer, maxRetries, attempt)
        invariant total == attempts + Attempts(answer, maxRetries, attempt)
        decreases maxRetries - attempt
      {
        var outcome := answer(attempt);
        Step(answer, maxRetries, attempt);
        attempts := attempts + 1;
        if outcome.Responded? {
          if 400 <= outcome.status < 600 {
            r := Err(HttpErrorText(outcome.status, outcome.text));
          } else {
            r := Ok(Some(Response(outcome.status, outcome.text)));
          }
          return;
        } else if outcome.ConnectionFailed? || outcome.TimedOut? {
          if attempt == maxRetries {
            r := Err(Exhausted(maxRetries, outcome.error));
            return;
          }
        } else if outcome.RequestFailed? {
          r := Err(RequestFailedText(outcome.error));
          return;
        } else {
          r := Err(UnexpectedText(outcome.error));
          return;
        }
        attempt := attempt + 1;
      }
      r := Ok(None);
    }
  }

  /** One attempt of the loop: it settles the call, ends it with the last
      retry, or passes on to the next attempt. */
  lemma Step(answer: nat -> Outcome, maxRetries: int, attempt: nat)
    requires 1 <= attempt <= maxRetries
    ensures !Retryable(answer(attempt)) ==>
      Requested(answer, maxRetries, attempt) == Settle(answer(attempt))
      && Attempts(answer, maxRetries, attempt) == 1
    ensures Retryable(answer(attempt)) && attempt == maxRetries ==>
      Requested(answer, maxRetries, attempt) == Err(Exhausted(maxRetries, answer(attempt).error))
      && Attempts(answer, maxRetries, attempt) == 1
    ensures Retryable(answer(attempt)) && attempt < maxRetries ==>
      Requested(answer, maxRetries, attempt) == Requested(answer, maxRetries, attempt + 1)
      && Attempts(answer, maxRetries, attempt) == 1 + Attempts(answer, maxRetries, attempt + 1)
  {
  }

  /** Attempts that are tried again pass the decision on to the next one. */
  lemma {:induction false} RetriesPassOn(answer: nat -> Outcome, maxRetries: int, a: nat, k: nat)
    requires 1 <= a <= k <= maxRetries
    requires forall j :: a <= j < k ==> Retryable(answer(j))
    ensures Requested(answer, maxRetries, a) == Requested(answer, maxRetries, k)
    ensures Attempts(answer, maxRetries, a) == k - a + Attempts(answer, maxRetries, k)
    decreases k - a
  {
    if a < k {
      RetriesPassOn(answer, maxRetries, a + 1, k);
    }
  }

  /** The first attempt that is not a connection error or a time-out decides
      the call, and is the last attempt made: a success is returned at once,
      an HTTP error status or another failure raises without a retry. */
  lemma FirstSettledDecides(answer: nat -> Outcome, maxRetries: int, k: nat)
    requires 1 <= k <= maxRetries && !Retryable(answer(k))
    requires forall j :: 1 <= j < k ==> Retryable(answer(j))
    ensures Requested(answer, maxRetries, 1) == Settle(answer(k))
    ensures Attempts(answer, maxRetries, 1) == k
  {
    RetriesPassOn(answer, maxRetries, 1, k);
  }

  /** When every attempt fails to connect or times out, all `maxRetries`
      attempts are made and the call raises with the count and the last
      error. */
  lemma RetriesExhausted(answer: nat -> Outcome, maxRetries: int)
    requires maxRetries >= 1
    requires forall j :: 1 <= j <= maxRetries ==> Retryable(answer(j))
    ensures Retryable(answer(maxRetries)) && Requested(answer, maxRetries, 1) == Err(Exhausted(maxRetries, answer(maxRetries).error))
    ensures Attempts(answer, maxRetries, 1) == maxRetries
  {
    RetriesPassOn(answer, maxRetries, 1, maxRetries);
  }

  /** Never more than `maxRetries` attempts, and at least one when any is
      allowed. */
  lemma {:induction false} AttemptsBounded(answer: nat -> Outcome, maxRetries: int, a: nat)
    requires a >= 1
    ensures Attempts(answer, maxRetries, a) <= if maxRetries < a then 0 else maxRetries - a + 1
    ensures a <= maxRetries ==> Attempts(answer, maxRetries, a) >= 1
    decreases maxRetries - a
  {
    if a < maxRetries && Retryable(answer(a)) {
      AttemptsBounded(answer, maxRetries, a + 1);
    }
  }

  /** A call returns None, instead of a response or an error, exactly when
      no attempt is allowed. */
  lemma {:induction false} NoneWithoutAttempts(answer: nat -> Outcome, maxRetries: int, a: nat)
    requires a >= 1
    ensures Requested(answer, maxRetries, a) == Ok(None) <==> maxRetries < a
    decreases maxRetries - a
  {
    if a < maxRetries && Retryable(answer(a)) {
      NoneWithoutAttempts(answer, maxRetries, a + 1);
    }
  }
}
