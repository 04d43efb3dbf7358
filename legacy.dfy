/**
 * The legacy adapter (client/acclient_ext/legacyclient.py): it turns a job
 * result into the dict shape older callers expect, and refuses fan-out jobs.
 * Its constructor raises NotImplementedError unconditionally, so nothing
 * here is reachable from a LegacyClient instance; the two operations are
 * modelled as they are written.
 */
module Legacy {
  import opened Wrappers
  import opened Python
  import opened RunArguments

  /** The attributes _process_result reads from a result object. */
  datatype JobResult = JobResult(state: Value, level: Value, data: Value, nid: Value, gid: Value, id: Value)

  /** The result level whose data is JSON. */
  const JSON_LEVEL: int := 20

  /** The attributes copied verbatim, in the order they are copied. */
  const COPIED: seq<string> := ["nid", "gid", "id"]

  /** getattr(result, key) for the copied attributes. */
  function Attribute(result: JobResult, key: string): Value {
    if key == "nid" then result.nid
    else if key == "gid" then result.gid
    else result.id
  }

  /** The state callers see: 'SUCCESS' is reported as 'OK'. */
  function ReportedState(state: Value): (s: Value)
    ensures s == PyStr("OK") <==> state == PyStr("SUCCESS") || state == PyStr("OK")
    ensures state != PyStr("SUCCESS") ==> s == state
  {
    if state == PyStr("SUCCESS") then PyStr("OK") else state
  }

  /** _process_result: builds the dict step by step; a level-20 result whose
      data does not decode raises what json.loads raises. */
  method ProcessResult(result: JobResult, json: Json) returns (r: Result<map<string, Value>, PyError>)
    ensures r.Success? <==> result.level != PyInt(JSON_LEVEL) || Loads(json, result.data).Success?
    ensures r.Failure? ==> Loads(json, result.data).Failure? && r.error == Loads(json, result.data).error
    ensures r.Success? ==> r.value.Keys == {"state", "result", "nid", "gid", "id"}
    ensures r.Success? ==> r.value["state"] == ReportedState(result.state)
    ensures r.Success? && result.level == PyInt(JSON_LEVEL) ==> r.value["result"] == Loads(json, result.data).value
    ensures r.Success? && result.level != PyInt(JSON_LEVEL) ==> r.value["result"] == result.data
    ensures r.Success? ==> r.value["nid"] == result.nid && r.value["gid"] == result.gid && r.value["id"] == result.id
  {
    var job: map<string, Value> := map[];
    job := job["state" := result.state];
    if job["state"] == PyStr("SUCCESS") {
      job := job["state" := PyStr("OK")];
    }
    if result.level == PyInt(JSON_LEVEL) {
      var decoded := Loads(json, result.data);
      if decoded.Failure? {
        return Failure(decoded.error);
      }
      job := job["result" := decoded.value];
    } else {
      job := job["result" := result.data];
    }
    job := CopyAttributes(job, result);
    r := Success(job);
  }

  /** The loop of _process_result: sets nid, gid and id from the result and
      leaves every other key as it was. */
  method CopyAttributes(job: map<string, Value>, result: JobResult) returns (out: map<string, Value>)
    ensures out.Keys == job.Keys + {"nid", "gid", "id"}
    ensures forall k :: k in job && k !in COPIED ==> out[k] == job[k]
    ensures out["nid"] == result.nid && out["gid"] == result.gid && out["id"] == result.id
  {
    out := job;
    for i := 0 to |COPIED|
      invariant out.Keys == job.Keys + set j | 0 <= j < i :: COPIED[j]
      invariant forall k :: k in job && k !in COPIED ==> out[k] == job[k]
      invariant forall j :: 0 <= j < i ==> out[COPIED[j]] == Attribute(result, COPIED[j])
    {
      out := out[COPIED[i] := Attribute(result, COPIED[i])];
    }
    assert (set j | 0 <= j < 3 :: COPIED[j]) == {"nid", "gid", "id"} by {
      assert COPIED[0] == "nid" && COPIED[1] == "gid" && COPIED[2] == "id";
    }
    assert out[COPIED[0]] == result.nid && out[COPIED[1]] == result.gid && out[COPIED[2]] == result.id;
  }

  /** With a lawful codec, a level-20 result whose data is the encoding of v
      reports v itself. */
  lemma JsonResultRoundTrip(json: Json, v: Value)
    requires Lawful(json)
    ensures Loads(json, PyStr(json.dumps(v))) == Success(v)
  {
    assert json.loads(json.dumps(v)) == Some(v);
  }

  /** No RunArgs keyword is named 'queue'. */
  lemma QueueIsNotAKeyword()
    ensures !IsKey("queue")
  {
    forall f: Field
      ensures Key(f) != "queue"
    {
      assert |Key(f)| != 5;
    }
  }

  /** executeJumpscript up to the dispatch: a truthy `all` is refused, and
      otherwise the run arguments are built with a `queue` keyword. The
      dispatch and the wait that follow are not reached: the constructor
      refuses `queue`, so every call raises. */
  method ExecuteJumpscript(organization: Value, name: Value, queue: Value, timeout: Value, all: Value)
    returns (r: Result<RunArgs, PyError>)
    ensures Truthy(all) ==> r == Failure(NotImplementedError("all is not supported"))
    ensures !Truthy(all) ==> r == Failure(TypeError("__init__() got an unexpected keyword argument"))
  {
    if Truthy(all) {
      return Failure(NotImplementedError("all is not supported"));
    }
    var kw := map["domain" := organization, "name" := name, "queue" := queue, "max_time" := timeout];
    QueueIsNotAKeyword();
    assert "queue" in kw;
    r := New(kw);
  }
}
