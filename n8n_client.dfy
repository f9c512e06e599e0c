/** The n8n engine client: the generic retry-with-backoff combinator, the
    contract of the create call (a non-2xx response throws and is therefore
    retried), and the engine itself as an object that records every call
    it receives and answers from scripted replies. */
module N8nClient {
  import opened Common
  import opened Strings
  import opened CompileToN8n

  /** One call of an asynchronous function: a value or a thrown error. */
  datatype Attempt<T> = Returned(value: T) | Threw(error: Thrown)

  /** How a retried call ended: the last attempt's outcome, how many
      attempts were made and the waits between them, in order. */
  datatype RetryRun<T> = RetryRun(outcome: Attempt<T>, attempts: nat, delays: seq<int>)

  function Pow2(k: nat): (r: nat)
    ensures r >= 1
  {
    if k == 0 then 1 else 2 * Pow2(k - 1)
  }

  /** The retry combinator started at attempt number `k`, where `fn(j)` is
      the scripted outcome of attempt `j`. Any thrown error leads to a
      retry while retries remain; the wait starts at `delay` and doubles. */
  function RetryFrom<T>(fn: nat -> Attempt<T>, k: nat, retries: nat, delay: int): (r: RetryRun<T>)
    decreases retries
    ensures 1 <= r.attempts <= retries + 1
    ensures |r.delays| == r.attempts - 1
    ensures forall i :: 0 <= i < |r.delays| ==> r.delays[i] == delay * Pow2(i)
    ensures forall j :: k <= j < k + r.attempts - 1 ==> fn(j).Threw?
    ensures r.outcome == fn(k + r.attempts - 1)
    ensures r.outcome.Threw? ==> r.attempts == retries + 1
  {
    match fn(k)
    case Returned(v) => RetryRun(Returned(v), 1, [])
    case Threw(e) =>
      if retries == 0 then RetryRun(Threw(e), 1, [])
      else
        var rest := RetryFrom(fn, k + 1, retries - 1, delay * 2);
        var delays := [delay] + rest.delays;
        assert forall i :: 0 <= i < |delays| ==> delays[i] == delay * Pow2(i) by {
          forall i | 0 < i < |delays| ensures delays[i] == delay * Pow2(i) {
            assert delays[i] == rest.delays[i - 1];
            DoubledDelay(delay, i);
          }
        }
        RetryRun(rest.outcome, rest.attempts + 1, delays)
  }

  lemma DoubledDelay(delay: int, i: nat)
    requires i > 0
    ensures delay * Pow2(i) == (delay * 2) * Pow2(i - 1)
  {
    calc {
      delay * Pow2(i);
      delay * (2 * Pow2(i - 1));
      (delay * 2) * Pow2(i - 1);
    }
  }

  /** `retryRequest(fn, retries, delay)`. */
  function RetryRequest<T>(fn: nat -> Attempt<T>, retries: nat, delay: int): RetryRun<T>
  {
    RetryFrom(fn, 0, retries, delay)
  }

  const DefaultRetries: nat := 2
  const DefaultDelay := 1000

  /** The retried call succeeds exactly when one of its first
      `retries + 1` attempts returns, and then it returns the first such
      value; otherwise the last attempt's error is rethrown unchanged. */
  lemma RetryRequestOutcome<T>(fn: nat -> Attempt<T>, retries: nat, delay: int)
    ensures var r := RetryRequest(fn, retries, delay);
      && (r.outcome.Returned? <==> exists j :: 0 <= j <= retries && fn(j).Returned?)
      && (r.outcome.Returned? ==> forall j :: 0 <= j < r.attempts - 1 ==> fn(j).Threw?)
      && (r.outcome.Threw? ==> r.outcome == fn(retries))
  {
    var r := RetryRequest(fn, retries, delay);
    if r.outcome.Threw? {
      forall j | 0 <= j <= retries ensures fn(j).Threw? {
        if j < r.attempts - 1 {
        } else {
          assert j == r.attempts - 1;
        }
      }
    } else {
      assert fn(r.attempts - 1).Returned?;
    }
  }

  /** With the defaults there are at most three attempts, separated by
      waits of 1000 and then 2000 ms. */
  lemma DefaultBackoff<T>(fn: nat -> Attempt<T>)
    ensures var r := RetryRequest(fn, DefaultRetries, DefaultDelay);
      r.attempts <= 3 && r.delays <= [1000, 2000]
  {
    var r := RetryRequest(fn, DefaultRetries, DefaultDelay);
    assert Pow2(1) == 2;
    if |r.delays| == 2 {
      assert r.delays == [1000, 2000];
    } else if |r.delays| == 1 {
      assert r.delays == [1000, 2000][..1];
    }
  }

  // ---------------------------------------------------------------- deployWorkflow

  /** What one POST to the workflows endpoint produced: a response with
      its status, body text and the created workflow's id, or a transport
      failure. */
  datatype FetchOutcome =
    | Response(status: nat, text: string, createdId: string)
    | NetworkFailure(thrown: Thrown)

  predicate Ok(status: nat)
  {
    200 <= status <= 299
  }

  /** The body of the create call: the name, the compiled workflow's
      fields and `active: true`. */
  datatype CreateRequest = CreateRequest(name: string, workflow: CompiledWorkflow, active: bool)

  function CreateRequestFor(name: string, compiled: CompiledWorkflow): (req: CreateRequest)
    ensures req.name == name && req.workflow == compiled && req.active
  {
    CreateRequest(name, compiled, true)
  }

  function DeploymentFailedMessage(status: nat, body: string): string
  {
    "n8n Deployment Failed [" + NatToString(status) + "]: " + body
  }

  /** One attempt of the create call: a 2xx response yields the new id,
      any other response throws an error that carries the status and the
      body text, and a transport failure propagates. */
  function CreateAttempt(reply: FetchOutcome): (a: Attempt<string>)
    ensures reply.Response? && Ok(reply.status) <==> a.Returned?
    ensures a.Returned? ==> a.value == reply.createdId
    ensures reply.Response? && !Ok(reply.status) ==>
      a == Threw(ErrorObject(DeploymentFailedMessage(reply.status, reply.text)))
    ensures reply.NetworkFailure? ==> a == Threw(reply.thrown)
  {
    match reply
    case Response(status, text, id) =>
      if Ok(status) then Returned(id)
      else Threw(ErrorObject(DeploymentFailedMessage(status, text)))
    case NetworkFailure(e) => Threw(e)
  }

  /** A non-2xx response is retried like any other error: a 500 on the
      first attempt followed by a 201 deploys on the second. */
  lemma ServerErrorIsRetried(id: string, fn: nat -> Attempt<string>)
    requires fn(0) == CreateAttempt(Response(500, "busy", ""))
    requires fn(1) == CreateAttempt(Response(201, "", id))
    ensures RetryRequest(fn, DefaultRetries, DefaultDelay) ==
      RetryRun(Returned(id), 2, [DefaultDelay])
  {
  }

  // ---------------------------------------------------------------- the engine

  /** A node of a workflow as the engine reports it back. */
  datatype RemoteNode = RemoteNode(nodeType: string, path: Option<string>)

  /** A workflow as the engine reports it back; `nodes` may be missing. */
  datatype RemoteWorkflow = RemoteWorkflow(id: string, nodes: Option<seq<RemoteNode>>)

  /** An observable effect on the engine, including the waits between
      calls. */
  datatype Call =
    | Create(request: CreateRequest)
    | Activate(id: string)
    | Fetch(id: string)
    | Deactivate(id: string)
    | Delete(id: string)
    | Sleep(ms: int)

  /** The effects of a retried create: a create call per attempt, with the
      waits in between. */
  function RetryTrace(req: CreateRequest, delays: seq<int>): (r: seq<Call>)
    ensures |r| == 2 * |delays| + 1
    ensures forall j :: 0 <= j <= |delays| ==> r[2 * j] == Create(req)
    ensures forall j :: 0 <= j < |delays| ==> r[2 * j + 1] == Sleep(delays[j])
  {
    if delays == [] then [Create(req)]
    else
      var rest := RetryTrace(req, delays[1..]);
      assert forall j :: 1 <= j <= |delays| ==> ([Create(req), Sleep(delays[0])] + rest)[2 * j] == rest[2 * (j - 1)];
      assert forall j :: 1 <= j < |delays| ==> ([Create(req), Sleep(delays[0])] + rest)[2 * j + 1] == rest[2 * (j - 1) + 1];
      [Create(req), Sleep(delays[0])] + rest
  }

  /** The n8n engine. Every call is appended to `trace`; the reply to the
      call made at trace position `p` is `httpReply(p)` for a create and
      `callReply(p)` for every other call. */
  class Engine {
    var trace: seq<Call>
    const httpReply: nat -> FetchOutcome
    const callReply: nat -> Attempt<RemoteWorkflow>

    constructor (httpReply: nat -> FetchOutcome, callReply: nat -> Attempt<RemoteWorkflow>)
      ensures trace == []
      ensures this.httpReply == httpReply && this.callReply == callReply
    {
      trace := [];
      this.httpReply := httpReply;
      this.callReply := callReply;
    }

    /** The outcome of each create attempt when the retried create starts
      at trace position `start`: attempt `j` is made at `start + 2 * j`,
      after the waits in between. */
    function CreateAttempts(start: nat): nat -> Attempt<string>
    {
      (j: nat) => CreateAttempt(httpReply(start + 2 * j))
    }

    function CreateRun(start: nat): RetryRun<string>
    {
      RetryRequest(CreateAttempts(start), DefaultRetries, DefaultDelay)
    }

    /** `n8nClient.deployWorkflow(name, compiled)`, given the request
      `CreateRequestFor(name, compiled)`: the create call under the default
      retry policy. */
    method DeployWorkflow(req: CreateRequest) returns (r: Attempt<string>)
      modifies this
      ensures var run := CreateRun(|old(trace)|);
        && r == run.outcome
        && trace == old(trace) + RetryTrace(req, run.delays)
    {
      var run := CreateRun(|trace|);
      trace := trace + RetryTrace(req, run.delays);
      r := run.outcome;
    }

    method ActivateWorkflow(id: string) returns (r: Attempt<RemoteWorkflow>)
      modifies this
      ensures trace == old(trace) + [Activate(id)] && r == callReply(|old(trace)|)
    {
      r := callReply(|trace|);
      trace := trace + [Activate(id)];
    }

    method GetWorkflow(id: string) returns (r: Attempt<RemoteWorkflow>)
      modifies this
      ensures trace == old(trace) + [Fetch(id)] && r == callReply(|old(trace)|)
    {
      r := callReply(|trace|);
      trace := trace + [Fetch(id)];
    }

    method DeactivateWorkflow(id: string) returns (r: Attempt<RemoteWorkflow>)
      modifies this
      ensures trace == old(trace) + [Deactivate(id)] && r == callReply(|old(trace)|)
    {
      r := callReply(|trace|);
      trace := trace + [Deactivate(id)];
    }

    method DeleteWorkflow(id: string) returns (r: Attempt<RemoteWorkflow>)
      modifies this
      ensures trace == old(trace) + [Delete(id)] && r == callReply(|old(trace)|)
    {
      r := callReply(|trace|);
      trace := trace + [Delete(id)];
    }

    /** A timer wait; it is recorded and never fails. */
    method Wait(ms: int)
      modifies this
      ensures trace == old(trace) + [Sleep(ms)]
    {
      trace := trace + [Sleep(ms)];
    }
  }
}
