/** The client side of one tool server (`McpConnection` in
    src/McpToolManager.js): every operation is one HTTP request, retried with
    a linearly growing pause until an attempt succeeds or the retries are
    used up.

    The network is a parameter: `net(request, n)` is what the `n`-th attempt
    of `request` yields. Pauses are not waited for; `Request` returns the
    list of pauses it would have waited, in milliseconds. */
module Connection {
  import opened Common
  import opened JsonValues
  import opened Failures

  /** What `request` hands to `fetch`: the URL, the method, the body and
      the `timeout` option. */
  datatype HttpRequest = HttpRequest(url: string, verb: string, body: Option<string>, timeout: Json)

  /** What one `fetch` attempt yields: a response (with what `response.json()`
      gives, or the parser's error message), or a rejected promise. */
  datatype Attempt =
    | Response(ok: bool, status: int, statusText: string, body: Result<Json, string>)
    | FetchFailed(message: string)

  /** The outcome of the `n`-th attempt of a request. */
  type Network = (HttpRequest, nat) -> Attempt

  /** One attempt of the `try` block: a non-ok status, a body that is not
      JSON and a rejected `fetch` all throw; otherwise the parsed body. */
  function AttemptResult(a: Attempt): (r: Result<Json, Failure>)
    ensures r.Ok? <==> a.Response? && a.ok && a.body.Ok?
  {
    match a
    case Response(ok, status, text, body) =>
      if !ok then Err(HttpStatus(status, text))
      else if body.Err? then Err(InvalidJson(body.error))
      else Ok(body.value)
    case FetchFailed(m) => Err(NetworkError(m))
  }

  /** The pause after failed attempt `attempt` (numbered from 0). */
  function Backoff(attempt: nat): int {
    1000 * (attempt + 1)
  }

  /** The number the loop's `attempt <= this.maxRetries` and
      `attempt < this.maxRetries` compare against. A value that converts to
      NaN fails every comparison, as the bound -1 does for the attempts
      0, 1, … */
  function RetryBound(maxRetries: Json): (b: real)
    ensures maxRetries.JNum? ==> b == NumValue(maxRetries)
    ensures maxRetries.JBool? ==> b == if maxRetries.b then 1.0 else 0.0
  {
    var n := ToNumber(Value(maxRetries));
    if n.Some? then n.value else -1.0
  }

  /** The loop of `request` from attempt `attempt` on, `lastError` being the
      error thrown so far: the result and the pauses taken. */
  function Retry(req: HttpRequest, net: Network, attempt: nat, bound: real, lastError: Failure): (Result<Json, Failure>, seq<int>)
    decreases bound.Floor + 1 - attempt
  {
    if attempt as real > bound then (Err(lastError), [])
    else
      var r := AttemptResult(net(req, attempt));
      if r.Ok? then (r, [])
      else
        var pause := if (attempt as real) < bound then [Backoff(attempt)] else [];
        var rest := Retry(req, net, attempt + 1, bound, r.error);
        (rest.0, pause + rest.1)
  }

  /** The outcome of `request`: attempts 0, 1, … while `attempt <=
      maxRetries`, the thrown value being `undefined` before the first
      attempt. */
  function RequestOutcome(req: HttpRequest, net: Network, maxRetries: Json): (Result<Json, Failure>, seq<int>) {
    Retry(req, net, 0, RetryBound(maxRetries), ThrownUndefined)
  }

  /** How many pauses the loop takes from attempt `from` on when every
      attempt fails: one after each attempt below the bound, so a bound
      with a fraction also pauses after the last attempt. */
  function FailedPauses(from: nat, bound: real): int {
    bound.Floor - from + (if (bound.Floor as real) < bound then 1 else 0)
  }

  /** The retry loop from attempt `from`: it returns the first success among
      the attempts `from`, `from + 1`, … up to the bound; when there is none
      it throws the error of the last attempt (or `lastError` when no
      attempt is left); the pauses are 1000·(k+1) ms after each failed
      attempt k below the bound. */
  lemma {:induction false} RetrySpec(req: HttpRequest, net: Network, from: nat, bound: real, lastError: Failure)
    ensures var (r, ds) := Retry(req, net, from, bound, lastError);
      && (forall i :: 0 <= i < |ds| ==> ds[i] == Backoff(from + i))
      && (r.Ok? ==> exists k: nat :: (from <= k && k as real <= bound && |ds| == k - from
            && r == AttemptResult(net(req, k))
            && forall j :: from <= j < k ==> AttemptResult(net(req, j)).Err?))
      && (r.Err? ==> forall j: nat :: from <= j && j as real <= bound ==> AttemptResult(net(req, j)).Err?)
      && (r.Err? && from as real <= bound ==> r == AttemptResult(net(req, bound.Floor)) && |ds| == FailedPauses(from, bound))
      && (r.Err? && from as real > bound ==> r == Err(lastError) && ds == [])
    decreases bound.Floor + 1 - from
  {
    if from as real <= bound {
      var a := AttemptResult(net(req, from));
      if a.Err? {
        RetrySpec(req, net, from + 1, bound, a.error);
        var (r, ds) := Retry(req, net, from, bound, lastError);
        var rest := Retry(req, net, from + 1, bound, a.error);
        if (from as real) < bound {
          assert ds == [Backoff(from)] + rest.1;
          forall i | 0 <= i < |ds| ensures ds[i] == Backoff(from + i) {
            if i > 0 {
              assert ds[i] == rest.1[i - 1];
            }
          }
          if r.Err? && (from + 1) as real > bound {
            assert bound.Floor == from;
          }
        } else {
          assert ds == rest.1;
          assert bound.Floor == from;
        }
        if r.Ok? {
          var k: nat :| from + 1 <= k && k as real <= bound && |rest.1| == k - (from + 1)
            && rest.0 == AttemptResult(net(req, k))
            && forall j :: from + 1 <= j < k ==> AttemptResult(net(req, j)).Err?;
          assert (from as real) < bound;
          assert |ds| == k - from;
        }
      }
    }
  }

  /** `request` throws `undefined` without any attempt when the bound is
      negative or NaN; otherwise every pause follows an attempt below the
      bound, and it succeeds exactly when some attempt up to the bound
      does. */
  lemma RequestBounds(req: HttpRequest, net: Network, maxRetries: Json)
    ensures var (r, ds) := RequestOutcome(req, net, maxRetries);
      var bound := RetryBound(maxRetries);
      && (bound < 0.0 ==> r == Err(ThrownUndefined) && ds == [])
      && (ds == [] || ((|ds| - 1) as real) < bound)
      && (r.Ok? <==> exists k: nat :: k as real <= bound && AttemptResult(net(req, k)).Ok?)
  {
    RetrySpec(req, net, 0, RetryBound(maxRetries), ThrownUndefined);
  }

  /** The body of the `/initialize` request. */
  function InitializeBody(): Json {
    JObj([Field("protocolVersion", JStr("2024-11-05")),
          Field("capabilities", JObj([
            Field("tools", JObj([Field("listChanged", JBool(true))])),
            Field("resources", JObj([Field("subscribe", JBool(true)), Field("listChanged", JBool(true))]))]))])
  }

  /** The body of a `/tools/call` request. */
  function CallBody(name: string, args: Json): Json {
    JObj([Field("name", JStr(name)), Field("arguments", args)])
  }

  /** The request `request(endpoint, options)` of a connection to
      `serverUrl` with the `timeout` option sends. */
  function RequestTo(serverUrl: string, timeout: Json, endpoint: string, verb: string, body: Option<Json>): HttpRequest {
    HttpRequest(serverUrl + endpoint, verb, if body.Some? then Some(Stringify(body.value)) else None, timeout)
  }

  class McpConnection {
    const serverUrl: string
    const timeout: Json
    const maxRetries: Json
    var isConnected: bool

    /** `new McpConnection(serverUrl, { timeout, maxRetries })`: a falsy
        option takes its default, so `maxRetries: 0` becomes 2, while a
        truthy one, `1.5` or `true` included, is kept as it is. */
    constructor (serverUrl: string, timeout: Lookup, maxRetries: Lookup)
      requires !timeout.Throws? && !maxRetries.Throws?
      ensures this.serverUrl == serverUrl
      ensures this.timeout == Or(timeout, Int(5000))
      ensures this.maxRetries == Or(maxRetries, Int(2))
      ensures !isConnected
    {
      this.serverUrl := serverUrl;
      this.timeout := Or(timeout, Int(5000));
      this.maxRetries := Or(maxRetries, Int(2));
      isConnected := false;
    }

    /** The request `request(endpoint, options)` sends. */
    function RequestFor(endpoint: string, verb: string, body: Option<Json>): HttpRequest {
      RequestTo(serverUrl, timeout, endpoint, verb, body)
    }

    /** `request(endpoint, options)`: the retry loop. Returns the result (or
        the error thrown) and the pauses taken between attempts. */
    method Request(endpoint: string, verb: string, body: Option<Json>, net: Network)
      returns (r: Result<Json, Failure>, pauses: seq<int>)
      ensures (r, pauses) == RequestOutcome(RequestFor(endpoint, verb, body), net, maxRetries)
    {
      var req := RequestFor(endpoint, verb, body);
      var bound := RetryBound(maxRetries);
      var lastError := ThrownUndefined;
      pauses := [];
      assert [] + RequestOutcome(req, net, maxRetries).1 == RequestOutcome(req, net, maxRetries).1;
      var attempt: nat := 0;
      while attempt as real <= bound
        invariant RequestOutcome(req, net, maxRetries).0 == Retry(req, net, attempt, bound, lastError).0
        invariant RequestOutcome(req, net, maxRetries).1 == pauses + Retry(req, net, attempt, bound, lastError).1
        decreases bound.Floor + 1 - attempt
      {
        var outcome := AttemptResult(net(req, attempt));
        if outcome.Ok? {
          assert pauses + [] == pauses;
          return outcome, pauses;
        }
        var rest := Retry(req, net, attempt + 1, bound, outcome.error);
        lastError := outcome.error;
        if (attempt as real) < bound {
          assert pauses + ([Backoff(attempt)] + rest.1) == (pauses + [Backoff(attempt)]) + rest.1;
          pauses := pauses + [Backoff(attempt)];
        } else {
          assert [] + rest.1 == rest.1;
        }
        attempt := attempt + 1;
      }
      assert pauses + [] == pauses;
      r := Err(lastError);
    }

    /** `initialize()`: the handshake; the connection counts as connected once
        it succeeds. */
    method Initialize(net: Network) returns (r: Result<Json, Failure>)
      modifies this
      ensures r == RequestOutcome(RequestFor("/initialize", "POST", Some(InitializeBody())), net, maxRetries).0
      ensures isConnected == (old(isConnected) || r.Ok?)
    {
      var pauses;
      r, pauses := Request("/initialize", "POST", Some(InitializeBody()), net);
      if r.Ok? {
        isConnected := true;
      }
    }

    /** `listTools()`. */
    method ListTools(net: Network) returns (r: Result<Json, Failure>)
      ensures r == RequestOutcome(RequestFor("/tools/list", "GET", None), net, maxRetries).0
    {
      var pauses;
      r, pauses := Request("/tools/list", "GET", None, net);
    }

    /** `callTool(name, args)`. */
    method CallTool(name: string, args: Json, net: Network) returns (r: Result<Json, Failure>)
      ensures r == RequestOutcome(RequestFor("/tools/call", "POST", Some(CallBody(name, args))), net, maxRetries).0
    {
      var pauses;
      r, pauses := Request("/tools/call", "POST", Some(CallBody(name, args)), net);
    }

    /** `ping()`. */
    method Ping(net: Network) returns (r: Result<Json, Failure>)
      ensures r == RequestOutcome(RequestFor("/ping", "GET", None), net, maxRetries).0
    {
      var pauses;
      r, pauses := Request("/ping", "GET", None, net);
    }

    /** `close()`. */
    method Close()
      modifies this
      ensures !isConnected
    {
      isConnected := false;
    }
  }

  /** A connection made with `maxRetries` 0 still retries twice: three
      attempts, two pauses of 1000 and 2000 ms, when every attempt fails. */
  lemma ZeroRetriesMeansTwo(req: HttpRequest, net: Network)
    requires forall k :: AttemptResult(net(req, k)).Err?
    ensures RequestOutcome(req, net, Or(Value(Int(0)), Int(2))).1 == [1000, 2000]
    ensures RequestOutcome(req, net, Or(Value(Int(0)), Int(2))).0 == AttemptResult(net(req, 2))
  {
    RetrySpec(req, net, 0, 2.0, ThrownUndefined);
    assert (2.0).Floor == 2;
  }

  /** `maxRetries: 1.5` is kept, so the loop makes the attempts 0 and 1 and,
      since 1 < 1.5, pauses after the last failed attempt as well. */
  lemma FractionalRetries(req: HttpRequest, net: Network)
    requires forall k :: AttemptResult(net(req, k)).Err?
    ensures RequestOutcome(req, net, Or(Value(JNum(15, 1)), Int(2))).1 == [1000, 2000]
    ensures RequestOutcome(req, net, Or(Value(JNum(15, 1)), Int(2))).0 == AttemptResult(net(req, 1))
  {
    assert Pow10(1) == 10;
    assert RetryBound(JNum(15, 1)) == 1.5;
    RetrySpec(req, net, 0, 1.5, ThrownUndefined);
    assert (1.5).Floor == 1;
  }

  /** `maxRetries: true` is kept and compares as 1: two attempts and one
      pause when every attempt fails. */
  lemma BooleanRetries(req: HttpRequest, net: Network)
    requires forall k :: AttemptResult(net(req, k)).Err?
    ensures RequestOutcome(req, net, Or(Value(JBool(true)), Int(2))).1 == [1000]
    ensures RequestOutcome(req, net, Or(Value(JBool(true)), Int(2))).0 == AttemptResult(net(req, 1))
  {
    RetrySpec(req, net, 0, 1.0, ThrownUndefined);
    assert (1.0).Floor == 1;
  }
}
