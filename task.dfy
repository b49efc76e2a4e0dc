/** The task service (its behaviour as pkg/cloudca/services/task_test.go
    pins it down): `Get` fetches one task through the API client, and `Poll`
    keeps fetching it while it is pending. The client is a script: the i-th
    call to `Do` receives the i-th scripted reply, as the ordered mock
    expectations of the tests hand them out. */
module TaskService {
  import opened Json
  import opened ApiResponse
  import opened ApiClient

  const Pending := "PENDING"
  const Success := "SUCCESS"
  const Failed := "FAILED"

  /** A task as the `tasks/<id>` endpoint reports it; `result` keeps the raw
      bytes of the `result` member, nil when it is absent. */
  datatype Task = Task(id: string, status: string, created: string, result: Option<seq<byte>>)

  /** The request Get issues: `GET tasks/<id>`, no body, no options. */
  function TaskRequest(id: string): Request
  {
    Request("GET", "tasks/" + id, None, None)
  }

  /** The bytes `json.Unmarshal` reads: a nil `Data` is empty. */
  function DataBytes(data: Option<seq<byte>>): seq<byte>
  {
    if data.Some? then data.value else []
  }

  /** The task held in a response's `data`; `decode` is `json.Unmarshal` into a
      map of raw members. It decodes exactly when the data is an object whose
      `id`, `status` and `created` are strings, `null` or absent, and `Result` is the
      raw text of the `result` member. */
  function ParseTask(data: Option<seq<byte>>, decode: seq<byte> -> Body): (r: Result<Task>)
    ensures decode(DataBytes(data)).NotObject? ==> r == Err(Malformed)
    ensures r.Ok? <==>
      (decode(DataBytes(data)).Object? &&
       var f := decode(DataBytes(data)).fields;
       StringField(f, "id").Some? && StringField(f, "status").Some? && StringField(f, "created").Some?)
    ensures r.Ok? ==>
      var f := decode(DataBytes(data)).fields;
      && r.value.id == StringField(f, "id").value
      && r.value.status == StringField(f, "status").value
      && r.value.created == StringField(f, "created").value
      && r.value.result == (if "result" in f then Some(f["result"].text) else None)
    ensures r.Err? ==> r == Err(Malformed)
  {
    match decode(DataBytes(data))
    case NotObject => Err(Malformed)
    case Object(f) =>
      var id := StringField(f, "id");
      var status := StringField(f, "status");
      var created := StringField(f, "created");
      if id.Some? && status.Some? && created.Some? then
        Ok(Task(id.value, status.value, created.value, if "result" in f then Some(f["result"].text) else None))
      else
        Err(Malformed)
  }

  /** `TaskApi.Get(id)`: the one request it sends to `Do`, and what it makes of
      the reply. A failing `Do` is passed on unchanged and a response with an
      error status becomes its `ErrorResponse`; neither yields a task. */
  function Get(id: string, reply: Result<Response>, decode: seq<byte> -> Body): (r: (Request, Result<Task>))
    ensures r.0 == Request("GET", "tasks/" + id, None, None)
    ensures reply.Err? ==> r.1 == Err(reply.error)
    ensures reply.Ok? && reply.value.IsError() ==> r.1 == Err(ErrorResponse(reply.value))
    ensures reply.Ok? && !reply.value.IsError() ==> r.1 == ParseTask(reply.value.data, decode)
  {
    var task :=
      match reply
      case Err(e) => Err(e)
      case Ok(response) =>
        if response.IsError() then Err(ErrorResponse(response)) else ParseTask(response.data, decode);
    (TaskRequest(id), task)
  }

  /** A 2xx response whose data holds `id`, `status`, `created` and `result`
      gives the task with those values, `result` as raw bytes. */
  lemma GetDecodesTask(id: string, response: Response, decode: seq<byte> -> Body, f: map<string, Raw>)
    requires IsInOKRange(response.statusCode) && response.data.Some?
    requires decode(response.data.value) == Object(f)
    requires "id" in f && f["id"].value.JString?
    requires "status" in f && f["status"].value.JString?
    requires "created" in f && f["created"].value.JString?
    requires "result" in f
    ensures Get(id, Ok(response), decode).1 ==
      Ok(Task(f["id"].value.s, f["status"].value.s, f["created"].value.s, Some(f["result"].text)))
  {
  }

  // ---------------------------------------------------------------------------
  // Poll

  datatype PollOutcome =
    | Completed(result: Option<seq<byte>>)  // the task reached SUCCESS
    | GetFailed(error: Failure)             // a Get failed; its error is returned
    | TaskFailed(task: Task)                // the task reached any other status
    | ScriptExhausted                       // still pending when the scripted replies ran out

  /** What one polling round decides: `None` to ask again (still pending). */
  function Step(t: Result<Task>): Option<PollOutcome>
  {
    match t
    case Err(e) => Some(GetFailed(e))
    case Ok(task) =>
      if task.status == Pending then None
      else if task.status == Success then Some(Completed(task.result))
      else Some(TaskFailed(task))
  }

  predicate StillPending(id: string, reply: Result<Response>, decode: seq<byte> -> Body) {
    Step(Get(id, reply, decode).1).None?
  }

  /** The outcome of polling against a script, and how many replies it used. */
  function PollRun(id: string, script: seq<Result<Response>>, decode: seq<byte> -> Body): (PollOutcome, nat)
  {
    if script == [] then (ScriptExhausted, 0)
    else
      match Step(Get(id, script[0], decode).1)
      case Some(o) => (o, 1)
      case None => (PollRun(id, script[1..], decode).0, PollRun(id, script[1..], decode).1 + 1)
  }

  /** `TaskApi.Poll`: one `Get` per round, in order, until the task is no
      longer pending. `requests` lists the calls made to `Do`. */
  method Poll(id: string, script: seq<Result<Response>>, decode: seq<byte> -> Body)
    returns (outcome: PollOutcome, requests: seq<Request>)
    ensures (outcome, |requests|) == PollRun(id, script, decode)
    ensures forall j :: 0 <= j < |requests| ==> requests[j] == TaskRequest(id)
  {
    requests := [];
    var i := 0;
    while i < |script|
      invariant 0 <= i <= |script|
      invariant |requests| == i
      invariant forall j :: 0 <= j < i ==> requests[j] == TaskRequest(id)
      invariant PollRun(id, script, decode) == (PollRun(id, script[i..], decode).0, PollRun(id, script[i..], decode).1 + i)
    {
      var (request, task) := Get(id, script[i], decode);
      requests := requests + [request];
      assert script[i..][0] == script[i];
      assert script[i..][1..] == script[i + 1..];
      var decided := Step(task);
      if decided.Some? {
        outcome := decided.value;
        return;
      }
      i := i + 1;
    }
    outcome := ScriptExhausted;
  }

  /** Polling stops at the first reply that is not pending: after `k` pending
      replies it makes exactly `k + 1` calls and returns what that reply
      decided, whatever the script holds afterwards. */
  lemma {:induction false} PollStopsAtFirstNonPending(id: string, script: seq<Result<Response>>, decode: seq<byte> -> Body, k: nat)
    requires k < |script|
    requires forall j :: 0 <= j < k ==> StillPending(id, script[j], decode)
    requires !StillPending(id, script[k], decode)
    ensures PollRun(id, script, decode) == (Step(Get(id, script[k], decode).1).value, k + 1)
  {
    if k > 0 {
      var rest := script[1..];
      assert forall j :: 0 <= j < k - 1 ==> rest[j] == script[j + 1];
      PollStopsAtFirstNonPending(id, rest, decode, k - 1);
      assert StillPending(id, script[0], decode);
    }
  }

  /** A script that stays pending throughout is used up, one call per reply. */
  lemma {:induction false} PollAllPending(id: string, script: seq<Result<Response>>, decode: seq<byte> -> Body)
    requires forall j :: 0 <= j < |script| ==> StillPending(id, script[j], decode)
    ensures PollRun(id, script, decode) == (ScriptExhausted, |script|)
  {
    if script != [] {
      var rest := script[1..];
      assert forall j :: 0 <= j < |rest| ==> rest[j] == script[j + 1];
      PollAllPending(id, rest, decode);
      assert StillPending(id, script[0], decode);
    }
  }

  /** PENDING, PENDING, SUCCESS: three calls, and the result bytes of the
      third reply. */
  lemma PollPendingPendingSuccess(id: string, script: seq<Result<Response>>, decode: seq<byte> -> Body, task: Task)
    requires |script| >= 3
    requires StillPending(id, script[0], decode) && StillPending(id, script[1], decode)
    requires Get(id, script[2], decode).1 == Ok(task) && task.status == Success
    ensures PollRun(id, script, decode) == (Completed(task.result), 3)
  {
    PollStopsAtFirstNonPending(id, script, decode, 2);
  }

  /** A task that reaches FAILED after pending rounds, or a reply with an
      error status, ends polling with an error and no result. */
  lemma PollFailsAfterPending(id: string, script: seq<Result<Response>>, decode: seq<byte> -> Body, k: nat)
    requires k < |script|
    requires forall j :: 0 <= j < k ==> StillPending(id, script[j], decode)
    requires
      || (Get(id, script[k], decode).1.Ok? && Get(id, script[k], decode).1.value.status == Failed)
      || (script[k].Ok? && script[k].value.IsError())
    ensures PollRun(id, script, decode).1 == k + 1
    ensures PollRun(id, script, decode).0.TaskFailed? || PollRun(id, script, decode).0.GetFailed?
  {
    PollStopsAtFirstNonPending(id, script, decode, k);
  }
}
