/**
 * The API client (src/render_status_deploys/client.py): the requests it makes
 * for services, deploys and jobs, and the unwrapping of the envelope objects
 * in each response. The HTTP session is a `Transport` parameter: a function
 * from a request to the decoded JSON array of the response, or the message of
 * the HTTP error the session raised.
 */
module Client {
  import opened Wrappers

  /** A decoded JSON value. Numbers are kept as integers. */
  datatype Json =
    | JNull
    | JBool(b: bool)
    | JNumber(n: int)
    | JString(s: string)
    | JArray(items: seq<Json>)
    | JObject(fields: map<string, Json>)

  /** The three endpoints the client calls. */
  datatype Endpoint =
    | ListServices
    | ListDeploys(serviceId: string, limit: int)
    | ListJobs(serviceId: string)

  /** A GET request: a path relative to the API's base URL and its query parameters. */
  datatype Request = Request(path: string, params: map<string, int>)

  /** What a client call can raise. `HttpError` is the transport's own error,
      passed on unchanged; `KeyError` and `TypeError` come from `item[key]`. */
  datatype Error = HttpError(message: string) | KeyError(key: string) | TypeError

  type Transport = Request -> Result<seq<Json>, string>

  const DEFAULT_DEPLOY_LIMIT := 10

  function RequestFor(e: Endpoint): Request {
    match e
    case ListServices => Request("/services", map[])
    case ListDeploys(id, limit) => Request("/services/" + id + "/deploys", map["limit" := limit])
    case ListJobs(id) => Request("/services/" + id + "/jobs", map[])
  }

  /** True when `item[key]` succeeds: `item` is an object that has `key`. */
  predicate HasKey(item: Json, key: string) {
    item.JObject? && key in item.fields
  }

  /** Python's `item[key]` on a decoded JSON value. */
  function Subscript(item: Json, key: string): (r: Result<Json, Error>)
    ensures r.Success? <==> HasKey(item, key)
    ensures r.Success? ==> r.value == item.fields[key]
    ensures r.Failure? ==> r.error == if item.JObject? then KeyError(key) else TypeError
  {
    match item
    case JObject(fields) => if key in fields then Success(fields[key]) else Failure(KeyError(key))
    case _ => Failure(TypeError)
  }

  /** `[item[key] for item in data]`: items are unwrapped left to right and the
      first item that cannot be unwrapped raises. */
  function Unwrap(data: seq<Json>, key: string): (r: Result<seq<Json>, Error>)
    ensures r.Success? ==> |r.value| == |data|
  {
    if data == [] then Success([])
    else
      match Subscript(data[0], key)
      case Failure(e) => Failure(e)
      case Success(v) =>
        match Unwrap(data[1..], key)
        case Failure(e) => Failure(e)
        case Success(rest) => Success([v] + rest)
  }

  /** The wire shape of an envelope response: each payload under `key`. */
  function Wrap(payloads: seq<Json>, key: string): (r: seq<Json>)
    ensures |r| == |payloads|
    ensures forall i :: 0 <= i < |r| ==> HasKey(r[i], key) && r[i].fields[key] == payloads[i]
  {
    seq(|payloads|, i requires 0 <= i < |payloads| => JObject(map[key := payloads[i]]))
  }

  /** `get_jobs` treats the body as wrapped exactly when its first element is
      an object with a `job` key. */
  predicate IsWrappedJobs(data: seq<Json>) {
    |data| > 0 && HasKey(data[0], "job")
  }

  function JobsFromBody(data: seq<Json>): Result<seq<Json>, Error> {
    if IsWrappedJobs(data) then Unwrap(data, "job") else Success(data)
  }

  /** Sends the request; an HTTP error is passed on unchanged, otherwise the
      body goes to `unwrap`. */
  function Fetch(t: Transport, e: Endpoint, unwrap: seq<Json> -> Result<seq<Json>, Error>): Result<seq<Json>, Error> {
    match t(RequestFor(e))
    case Failure(message) => Failure(HttpError(message))
    case Success(data) => unwrap(data)
  }

  function GetServices(t: Transport): Result<seq<Json>, Error> {
    Fetch(t, ListServices, data => Unwrap(data, "service"))
  }

  function GetDeploys(t: Transport, serviceId: string, limit: int := DEFAULT_DEPLOY_LIMIT): Result<seq<Json>, Error> {
    Fetch(t, ListDeploys(serviceId, limit), data => Unwrap(data, "deploy"))
  }

  function GetJobs(t: Transport, serviceId: string): Result<seq<Json>, Error> {
    Fetch(t, ListJobs(serviceId), JobsFromBody)
  }

  // ---------------------------------------------------------------------
  // Requests

  /** The service id can be read back from the middle of a path. */
  lemma MiddleOf(prefix: string, id: string, suffix: string)
    ensures |prefix + id + suffix| == |prefix| + |id| + |suffix|
    ensures (prefix + id + suffix)[|prefix|..|prefix| + |id|] == id
  {
    var p := prefix + id + suffix;
    assert forall i :: 0 <= i < |id| ==> p[|prefix| + i] == id[i];
  }

  /** Distinct endpoints never produce the same request, so the path and the
      parameters identify the endpoint, its service id and its limit. */
  lemma RequestForInjective(e1: Endpoint, e2: Endpoint)
    requires RequestFor(e1) == RequestFor(e2)
    ensures e1 == e2
  {
    var r := RequestFor(e1);
    match e1
    case ListServices =>
    case ListDeploys(a, _) =>
      assert "limit" in RequestFor(e2).params;
      var b := e2.serviceId;
      MiddleOf("/services/", a, "/deploys");
      MiddleOf("/services/", b, "/deploys");
      assert r.path[10..10 + |a|] == a;
      assert r.path[10..10 + |b|] == b;
    case ListJobs(a) =>
      MiddleOf("/services/", a, "/jobs");
      assert "limit" !in RequestFor(e2).params;
      assert |RequestFor(e2).path| >= 15;
      var b := e2.serviceId;
      MiddleOf("/services/", b, "/jobs");
      assert r.path[10..10 + |a|] == a;
      assert r.path[10..10 + |b|] == b;
  }

  /** The request paths and parameters the tests expect. */
  lemma RequestExamples()
    ensures RequestFor(ListServices) == Request("/services", map[])
    ensures RequestFor(ListDeploys("srv-1", 5)) == Request("/services/srv-1/deploys", map["limit" := 5])
    ensures RequestFor(ListJobs("srv-2")) == Request("/services/srv-2/jobs", map[])
  {
  }

  /** Without an explicit limit, deploys are requested with limit 10. */
  lemma GetDeploysDefaultLimit(t: Transport, serviceId: string)
    ensures GetDeploys(t, serviceId) == GetDeploys(t, serviceId, 10)
    ensures RequestFor(ListDeploys(serviceId, DEFAULT_DEPLOY_LIMIT)).params == map["limit" := 10]
  {
  }

  // ---------------------------------------------------------------------
  // Unwrapping

  /** Unwrapping succeeds exactly when every item has the key; the result then
      has one payload per item, in order. */
  lemma {:induction false} UnwrapSucceeds(data: seq<Json>, key: string)
    ensures Unwrap(data, key).Success? <==> forall i :: 0 <= i < |data| ==> HasKey(data[i], key)
    ensures Unwrap(data, key).Success? ==>
      var r := Unwrap(data, key).value;
      |r| == |data| && forall i :: 0 <= i < |data| ==> r[i] == data[i].fields[key]
  {
    if data != [] {
      UnwrapSucceeds(data[1..], key);
      if HasKey(data[0], key) && Unwrap(data[1..], key).Success? {
        var r := Unwrap(data, key).value;
        assert forall i :: 1 <= i < |data| ==> r[i] == Unwrap(data[1..], key).value[i - 1];
      }
      if !HasKey(data[0], key) {
        assert !HasKey(data[0], key);
      } else if Unwrap(data[1..], key).Failure? {
        var k :| 0 <= k < |data[1..]| && !HasKey(data[1..][k], key);
        assert !HasKey(data[k + 1], key);
      }
    }
  }

  /** When unwrapping fails, it raises the error of the first item without the key. */
  lemma {:induction false} UnwrapFailsAtFirst(data: seq<Json>, key: string, k: nat)
    requires k < |data| && !HasKey(data[k], key)
    requires forall i :: 0 <= i < k ==> HasKey(data[i], key)
    ensures Unwrap(data, key) == Failure(Subscript(data[k], key).error)
  {
    if k > 0 {
      UnwrapFailsAtFirst(data[1..], key, k - 1);
    }
  }

  /** Unwrapping never invents an HTTP error. */
  lemma {:induction false} UnwrapNoHttpError(data: seq<Json>, key: string)
    ensures Unwrap(data, key).Failure? ==> !Unwrap(data, key).error.HttpError?
  {
    if data != [] {
      UnwrapNoHttpError(data[1..], key);
    }
  }

  /** Unwrapping an envelope response gives back the payloads. */
  lemma {:induction false} UnwrapWrap(payloads: seq<Json>, key: string)
    ensures Unwrap(Wrap(payloads, key), key) == Success(payloads)
  {
    if payloads != [] {
      var w := Wrap(payloads, key);
      UnwrapWrap(payloads[1..], key);
      assert w[1..] == Wrap(payloads[1..], key);
      assert Subscript(w[0], key) == Success(payloads[0]);
      assert payloads == [payloads[0]] + payloads[1..];
    }
  }

  // ---------------------------------------------------------------------
  // The three calls

  /** A call fails with an HTTP error exactly when the transport fails, and
      with the transport's own message. */
  lemma HttpErrorPassesThrough(t: Transport, serviceId: string, limit: int)
    ensures GetServices(t).Failure? && GetServices(t).error.HttpError? <==> t(RequestFor(ListServices)).Failure?
    ensures t(RequestFor(ListServices)).Failure? ==>
      GetServices(t) == Failure(HttpError(t(RequestFor(ListServices)).error))
    ensures GetDeploys(t, serviceId, limit).Failure? && GetDeploys(t, serviceId, limit).error.HttpError?
      <==> t(RequestFor(ListDeploys(serviceId, limit))).Failure?
    ensures t(RequestFor(ListDeploys(serviceId, limit))).Failure? ==>
      GetDeploys(t, serviceId, limit) == Failure(HttpError(t(RequestFor(ListDeploys(serviceId, limit))).error))
    ensures GetJobs(t, serviceId).Failure? && GetJobs(t, serviceId).error.HttpError?
      <==> t(RequestFor(ListJobs(serviceId))).Failure?
    ensures t(RequestFor(ListJobs(serviceId))).Failure? ==>
      GetJobs(t, serviceId) == Failure(HttpError(t(RequestFor(ListJobs(serviceId))).error))
  {
    if t(RequestFor(ListServices)).Success? {
      UnwrapNoHttpError(t(RequestFor(ListServices)).value, "service");
    }
    if t(RequestFor(ListDeploys(serviceId, limit))).Success? {
      UnwrapNoHttpError(t(RequestFor(ListDeploys(serviceId, limit))).value, "deploy");
    }
    if t(RequestFor(ListJobs(serviceId))).Success? {
      var data := t(RequestFor(ListJobs(serviceId))).value;
      if IsWrappedJobs(data) {
        UnwrapNoHttpError(data, "job");
      }
    }
  }

  /** `get_services` returns the `service` payload of every item, in order,
      and raises when some item lacks it. */
  lemma GetServicesUnwraps(t: Transport, data: seq<Json>)
    requires t(RequestFor(ListServices)) == Success(data)
    ensures GetServices(t).Success? <==> forall i :: 0 <= i < |data| ==> HasKey(data[i], "service")
    ensures GetServices(t).Success? ==>
      var r := GetServices(t).value;
      |r| == |data| && forall i :: 0 <= i < |data| ==> r[i] == data[i].fields["service"]
  {
    UnwrapSucceeds(data, "service");
  }

  /** `get_deploys` returns the `deploy` payload of every item, in order,
      and raises when some item lacks it. */
  lemma GetDeploysUnwraps(t: Transport, serviceId: string, limit: int, data: seq<Json>)
    requires t(RequestFor(ListDeploys(serviceId, limit))) == Success(data)
    ensures GetDeploys(t, serviceId, limit).Success? <==> forall i :: 0 <= i < |data| ==> HasKey(data[i], "deploy")
    ensures GetDeploys(t, serviceId, limit).Success? ==>
      var r := GetDeploys(t, serviceId, limit).value;
      |r| == |data| && forall i :: 0 <= i < |data| ==> r[i] == data[i].fields["deploy"]
  {
    UnwrapSucceeds(data, "deploy");
  }

  /** A body whose first element is not a wrapped job comes back unchanged,
      whatever the later elements are; the empty body is one of these. */
  lemma JobsFlatPassThrough(data: seq<Json>)
    requires !IsWrappedJobs(data)
    ensures JobsFromBody(data) == Success(data)
  {
  }

  /** Once the first element is wrapped, every element must be: the call
      succeeds exactly when all of them carry `job`, and then returns the
      payloads in order. */
  lemma WrappedJobsNeedEveryKey(data: seq<Json>)
    requires IsWrappedJobs(data)
    ensures JobsFromBody(data).Success? <==> forall i :: 0 <= i < |data| ==> HasKey(data[i], "job")
    ensures JobsFromBody(data).Success? ==>
      var r := JobsFromBody(data).value;
      |r| == |data| && forall i :: 0 <= i < |data| ==> r[i] == data[i].fields["job"]
  {
    UnwrapSucceeds(data, "job");
  }

  /** The wrapped and the flat wire shape give the same job list, provided
      the first flat job is not itself an object with a `job` field (which
      the first-element test would take for an envelope). */
  lemma JobShapesAgree(jobs: seq<Json>)
    requires !IsWrappedJobs(jobs)
    ensures JobsFromBody(Wrap(jobs, "job")) == JobsFromBody(jobs) == Success(jobs)
  {
    UnwrapWrap(jobs, "job");
  }

  /** Detection looks only at the first element: a flat first job lets a
      wrapped second one through unchanged, and a wrapped first job makes a
      flat second one raise `KeyError`. */
  lemma JobsDetectionFirstOnly(job: map<string, Json>)
    requires "job" !in job
    ensures JobsFromBody([JObject(job), JObject(map["job" := JObject(job)])])
      == Success([JObject(job), JObject(map["job" := JObject(job)])])
    ensures JobsFromBody([JObject(map["job" := JObject(job)]), JObject(job)]) == Failure(KeyError("job"))
  {
    var data := [JObject(map["job" := JObject(job)]), JObject(job)];
    UnwrapFailsAtFirst(data, "job", 1);
  }
}
