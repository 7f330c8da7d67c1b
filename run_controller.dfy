// The entry point of the run service (apps/vs-run/src/vs-run.controller.ts):
// a published flow is called over HTTP under its context path; the
// controller checks the method and the content type, copies the system
// headers, builds the task graph, walks it and shapes the last task's
// output into the HTTP response.

module RunController {
  import opened Wrappers
  import opened Enums
  import opened Strs
  import opened OrderedMaps
  import opened FlowModel
  import opened Topology
  import opened FlowTask
  import opened RuntimeFlow
  import opened CheckUtils
  import opened RequestHeaders
  import opened VsProject

  const HeaderIdempotentId := "X-Idempotent-Id"
  const HeaderRequestTime := "X-Request-Time"
  const HeaderAntiReplayNonce := "X-Anti-Replay-Nonce"
  const HeaderAntiReplayTimestamp := "X-Anti-Replay-Timestamp"

  /** The system headers, in the order getSystemHeader sets them. */
  const SystemHeaderNames := [HeaderIdempotentId, HeaderRequestTime, HeaderAntiReplayNonce,
                              HeaderAntiReplayTimestamp]

  /** MAX_DEPTH of the controller. */
  const RunMaxDepth := 256

  const ContentTypeHeader := "Content-Type"
  const JsonType := "application/json"

  const UnsupportedMethod := "unsupported request method"
  const UnsupportedContentType := "unsupported Content-Type"
  const ContentTypeRequired := "request needs a Content-Type header"
  const NoResultHeader := "result task has no response header map"

  // ---------------------------------------------------------------------------
  // Method, content type and system headers

  /** getVsHttpMethod: GET and POST in any case; any other method throws,
      naming it. */
  function VsHttpMethod(raw: string): Result<HttpMethod>
  {
    if ToUpper(raw) == "GET" then Ok(Get)
    else if ToUpper(raw) == "POST" then Ok(Post)
    else Fail(Failure(Adapter, UnsupportedMethod, [raw]))
  }

  /** A method is accepted exactly when its upper-case form is the code of
      the method it maps to; the case of the request does not matter, and
      every method's own code maps back to it. */
  lemma VsHttpMethodSpec(raw: string)
    ensures VsHttpMethod(raw).Ok? <==> ToUpper(raw) == "GET" || ToUpper(raw) == "POST"
    ensures VsHttpMethod(raw).Ok? ==> ToUpper(raw) == VsHttpMethod(raw).value.Code()
    ensures VsHttpMethod(raw).Fail? ==> VsHttpMethod(raw).failure == Failure(Adapter, UnsupportedMethod, [raw])
    ensures VsHttpMethod(ToLower(raw)).Ok? == VsHttpMethod(raw).Ok?
    ensures VsHttpMethod(raw).Ok? ==> VsHttpMethod(ToLower(raw)) == VsHttpMethod(raw)
    ensures forall h: HttpMethod :: VsHttpMethod(h.Code()) == Ok(h)
  {
    CaseConversions(raw);
    assert ToUpper("GET") == "GET" && ToUpper("POST") == "POST";
  }

  /** isSystemHeader: one of the four system headers, without regard to case. */
  predicate IsSystemHeader(key: string)
  {
    || EqualsIgnoreCase(HeaderIdempotentId, key)
    || EqualsIgnoreCase(HeaderRequestTime, key)
    || EqualsIgnoreCase(HeaderAntiReplayNonce, key)
    || EqualsIgnoreCase(HeaderAntiReplayTimestamp, key)
  }

  /** The test ignores case in both directions, holds for the four names,
      and never holds for Content-Type. */
  lemma IsSystemHeaderSpec(key: string)
    ensures IsSystemHeader(key) <==> IsSystemHeader(ToLower(key))
    ensures IsSystemHeader(key) <==> IsSystemHeader(ToUpper(key))
    ensures forall i :: 0 <= i < |SystemHeaderNames| ==> IsSystemHeader(SystemHeaderNames[i])
    ensures IsSystemHeader(key) ==> |key| in {15, 14, 19, 23}
    ensures !IsSystemHeader(ContentTypeHeader)
  {
    CaseConversions(key);
    assert |ContentTypeHeader| == 12;
  }

  /** The value `requestHeader.get(name)`: the header under exactly that name. */
  function HeaderOf(requestHeader: Headers, name: string): Option<string>
  {
    if name in requestHeader then Some(requestHeader[name]) else None
  }

  /** getSystemHeader: a map from each system header name, in order, to the
      request's value under that exact name (undefined when it has none). */
  function SystemHeaders(requestHeader: Headers): OMap<Option<string>>
  {
    Empty<Option<string>>()
      .Put(HeaderIdempotentId, HeaderOf(requestHeader, HeaderIdempotentId))
      .Put(HeaderRequestTime, HeaderOf(requestHeader, HeaderRequestTime))
      .Put(HeaderAntiReplayNonce, HeaderOf(requestHeader, HeaderAntiReplayNonce))
      .Put(HeaderAntiReplayTimestamp, HeaderOf(requestHeader, HeaderAntiReplayTimestamp))
  }

  /** The system header map always has the four names, in order, each with
      the request's value under that name. */
  lemma SystemHeadersSpec(requestHeader: Headers)
    ensures SystemHeaders(requestHeader).keys == SystemHeaderNames
    ensures SystemHeaders(requestHeader).vals == map[
      HeaderIdempotentId := HeaderOf(requestHeader, HeaderIdempotentId),
      HeaderRequestTime := HeaderOf(requestHeader, HeaderRequestTime),
      HeaderAntiReplayNonce := HeaderOf(requestHeader, HeaderAntiReplayNonce),
      HeaderAntiReplayTimestamp := HeaderOf(requestHeader, HeaderAntiReplayTimestamp)]
    ensures SystemHeaders(requestHeader).Valid()
  {
    assert |HeaderIdempotentId| == 15 && |HeaderRequestTime| == 14;
    assert |HeaderAntiReplayNonce| == 19 && |HeaderAntiReplayTimestamp| == 23;
  }

  /** The content types vsAdapter passes on. */
  predicate AcceptedContentType(contentType: string)
  {
    || Contains(contentType, "application/json")
    || Contains(contentType, "application/xml")
    || Contains(contentType, "text/plain")
  }

  /** What vsAdapter passes on to the run: the request's method and the body
      (null when the request has no content type). */
  datatype Admission = Admission(verb: HttpMethod, body: Option<string>)

  /** The checks vsAdapter makes before running the flow: the method first;
      then a non-empty content type must contain one of the three accepted
      types (compared with case), and a request without one must be a GET,
      whose body is then dropped. */
  function Admit(raw: string, contentType: Option<string>, body: Option<string>): Result<Admission>
  {
    match VsHttpMethod(raw)
    case Fail(e) => Fail(e)
    case Ok(m) =>
      if Truthy(contentType) then
        if AcceptedContentType(contentType.value) then Ok(Admission(m, body))
        else Fail(Failure(Adapter, UnsupportedContentType, [contentType.value]))
      else if ToUpper(raw) == "GET" then Ok(Admission(m, None))
      else Fail(Failure(Adapter, ContentTypeRequired, [raw]))
  }

  /** A request is admitted exactly when its method is accepted and either it
      has an accepted content type or it is a GET without one; the body is
      passed on only with a content type.  A POST without a content type and
      an unaccepted content type are refused, whatever the method. */
  lemma AdmitSpec(raw: string, contentType: Option<string>, body: Option<string>)
    ensures VsHttpMethod(raw).Fail? ==> Admit(raw, contentType, body) == Fail(VsHttpMethod(raw).failure)
    ensures Admit(raw, contentType, body).Fail? ==> Admit(raw, contentType, body).failure.kind == Adapter
    ensures Admit(raw, contentType, body).Ok? <==>
      && VsHttpMethod(raw).Ok?
      && (if Truthy(contentType) then AcceptedContentType(contentType.value) else VsHttpMethod(raw).value == Get)
    ensures Admit(raw, contentType, body).Ok? ==>
      && Admit(raw, contentType, body).value.verb == VsHttpMethod(raw).value
      && Admit(raw, contentType, body).value.body == (if Truthy(contentType) then body else None)
    ensures VsHttpMethod(raw) == Ok(Post) && !Truthy(contentType) ==>
      Admit(raw, contentType, body) == Fail(Failure(Adapter, ContentTypeRequired, [raw]))
    ensures Truthy(contentType) && !AcceptedContentType(contentType.value) && VsHttpMethod(raw).Ok? ==>
      Admit(raw, contentType, body) == Fail(Failure(Adapter, UnsupportedContentType, [contentType.value]))
  {
    VsHttpMethodSpec(raw);
  }

  // ---------------------------------------------------------------------------
  // rewriteResponse

  /** The response of the run: status, headers (a header may be undefined)
      and body. */
  datatype HttpResponse = HttpResponse(statusCode: int, headers: map<string, Option<string>>,
                                       body: Option<string>)

  /** The headers rewriteResponse builds: the system headers, then
      Content-Type set to application/json, then every result header that is
      not a system header, in whatever case. */
  function Rewritten(systemHeader: OMap<Option<string>>, resultHeader: Headers): map<string, Option<string>>
  {
    systemHeader.vals[ContentTypeHeader := Some(JsonType)]
      + map k | k in resultHeader && !IsSystemHeader(k) :: Some(resultHeader[k])
  }

  /** With system headers as keys of the system map: the response carries
      exactly the system headers, Content-Type and the result headers that
      are not system headers; a system header keeps the request's value,
      a result header cannot overwrite it (nor add a variant of it in
      another case), Content-Type is application/json unless the result
      sets it, and every other result header keeps its value. */
  lemma RewrittenSpec(systemHeader: OMap<Option<string>>, resultHeader: Headers)
    requires forall k :: k in systemHeader.vals ==> IsSystemHeader(k)
    ensures forall k :: k in Rewritten(systemHeader, resultHeader) <==>
      k in systemHeader.vals || k == ContentTypeHeader || (k in resultHeader && !IsSystemHeader(k))
    ensures forall k :: k in systemHeader.vals ==> Rewritten(systemHeader, resultHeader)[k] == systemHeader.vals[k]
    ensures Rewritten(systemHeader, resultHeader)[ContentTypeHeader]
      == if ContentTypeHeader in resultHeader then Some(resultHeader[ContentTypeHeader]) else Some(JsonType)
    ensures forall k :: k in resultHeader && !IsSystemHeader(k) ==>
      Rewritten(systemHeader, resultHeader)[k] == Some(resultHeader[k])
    ensures forall k :: k in resultHeader && IsSystemHeader(k) && k !in systemHeader.vals ==>
      k !in Rewritten(systemHeader, resultHeader)
  {
    IsSystemHeaderSpec(ContentTypeHeader);
  }

  /** The system headers of the request reach the response unchanged,
      whatever headers the flow's result sets. */
  lemma SystemHeadersKept(requestHeader: Headers, resultHeader: Headers)
    ensures forall i :: 0 <= i < |SystemHeaderNames| ==>
      Rewritten(SystemHeaders(requestHeader), resultHeader)[SystemHeaderNames[i]]
        == HeaderOf(requestHeader, SystemHeaderNames[i])
  {
    SystemHeadersSpec(requestHeader);
    IsSystemHeaderSpec(ContentTypeHeader);
    var sys := SystemHeaders(requestHeader);
    forall k | k in sys.vals ensures IsSystemHeader(k) {
      assert k in SystemHeaderNames;
    }
    RewrittenSpec(sys, resultHeader);
  }

  /** Whatever the flow's result headers, the response carries each system
      header with the request's value and carries a Content-Type. */
  lemma ResponseHeaders(requestHeader: Headers, resultHeader: Headers)
    ensures forall i :: 0 <= i < |SystemHeaderNames| ==>
      && SystemHeaderNames[i] in Rewritten(SystemHeaders(requestHeader), resultHeader)
      && Rewritten(SystemHeaders(requestHeader), resultHeader)[SystemHeaderNames[i]]
         == HeaderOf(requestHeader, SystemHeaderNames[i])
    ensures ContentTypeHeader in Rewritten(SystemHeaders(requestHeader), resultHeader)
    ensures Rewritten(SystemHeaders(requestHeader), resultHeader)[ContentTypeHeader].Some?
  {
    SystemHeadersKept(requestHeader, resultHeader);
    SystemHeadersSpec(requestHeader);
  }

  /** A header record that agrees with Rewritten key by key is Rewritten. */
  lemma RewrittenIs(systemHeader: OMap<Option<string>>, resultHeader: Headers, h: map<string, Option<string>>)
    requires forall k :: k in h <==>
      k in systemHeader.vals || k == ContentTypeHeader || (k in resultHeader && !IsSystemHeader(k))
    requires forall k :: k in h ==>
      h[k] == (if k in resultHeader && !IsSystemHeader(k) then Some(resultHeader[k])
               else if k == ContentTypeHeader then Some(JsonType)
               else systemHeader.vals[k])
    ensures h == Rewritten(systemHeader, resultHeader)
  {
  }

  /** rewriteResponse: copies the system headers, sets Content-Type, then
      adds the result headers other than system headers; status 200 and the
      result as the body. */
  method RewriteResponse(result: Option<string>, resultHeader: Headers, systemHeader: OMap<Option<string>>)
    returns (resp: HttpResponse)
    requires systemHeader.Valid()
    ensures resp == HttpResponse(200, Rewritten(systemHeader, resultHeader), result)
  {
    var headers: map<string, Option<string>> := map[];
    var keys := systemHeader.keys;
    for i := 0 to |keys|
      invariant forall k :: k in headers <==> k in keys[..i]
      invariant forall k :: k in headers ==> k in systemHeader.vals && headers[k] == systemHeader.vals[k]
    {
      assert keys[..i + 1] == keys[..i] + [keys[i]];
      headers := headers[keys[i] := systemHeader.vals[keys[i]]];
    }
    assert keys[..|keys|] == keys;
    headers := headers[ContentTypeHeader := Some(JsonType)];
    var rest := resultHeader.Keys;
    while rest != {}
      invariant rest <= resultHeader.Keys
      invariant forall k :: k in headers <==>
        k in systemHeader.vals || k == ContentTypeHeader || (k in resultHeader && k !in rest && !IsSystemHeader(k))
      invariant forall k :: k in headers ==>
        headers[k] == (if k in resultHeader && k !in rest && !IsSystemHeader(k) then Some(resultHeader[k])
                       else if k == ContentTypeHeader then Some(JsonType)
                       else systemHeader.vals[k])
      decreases |rest|
    {
      var k :| k in rest;
      if !IsSystemHeader(k) {
        headers := headers[k := Some(resultHeader[k])];
      }
      rest := rest - {k};
    }
    RewrittenIs(systemHeader, resultHeader, headers);
    resp := HttpResponse(200, headers, result);
  }

  // ---------------------------------------------------------------------------
  // processFlow of the controller

  /** One round of the controller's walk: call `cur` without awaiting it;
      stop when it has no child map; fail when its activated child is not in
      it; otherwise hand the outputs and the flow context to that child.  The
      call's rejection is not observed: the walk reads the activation the
      call left, whatever its outcome.  `c` is the call made. */
  method RunStep(cur: FlowNodeTask, ghost tasks: set<FlowNodeTask>,
                 ghost kids: map<FlowNodeTask, Option<OMap<FlowNodeTask>>>, ghost made: Classes)
    returns (h: Hop, ghost c: CallRecord)
    requires cur in tasks && Snapshot(tasks, kids, made) && ClosedKids(kids)
    modifies cur`outputRequestBody, cur`outputResponseBody, cur`activatedNodeId
    modifies tasks`inputRequestBody, tasks`inputResponseBody, tasks`flowCtx
    ensures cur in kids && cur in made && Made(made[cur].0, kids[cur], made[cur].1, c)
    ensures c.inReq == old(cur.inputRequestBody) && c.inResp == old(cur.inputResponseBody)
    ensures c.after == cur.Outputs()
    ensures h.Stop? ==> kids[cur].None? && cur.flowCtx == old(cur.flowCtx)
    ensures h.Move? ==>
      && c.after.activated == Some(h.act)
      && kids[cur].Some? && kids[cur].value.Get(h.act) == Some(h.next) && h.next in tasks
      && h.next.inputRequestBody == c.after.request && h.next.inputResponseBody == c.after.response
      && h.next.flowCtx == old(cur.flowCtx)
    ensures h.Abort? ==>
      && kids[cur].Some?
      && (c.after.activated.None? || c.after.activated.value !in kids[cur].value.vals)
      && h.failure == Failure(Generic, NoActivatedChild, [cur.nodeName.GetOr("undefined")])
  {
    ghost var before := cur.Outputs();
    var o := cur.Call();
    c := CallRecord(cur.inputRequestBody, cur.inputResponseBody, before, o, cur.Outputs());
    var activated := cur.activatedNodeId;
    var children := cur.childNodes;
    if children.None? {
      return Stop, c;
    }
    if activated.None? || activated.value !in children.value.vals {
      return Abort(Failure(Generic, NoActivatedChild, [cur.nodeName.GetOr("undefined")])), c;
    }
    var next := children.value.vals[activated.value];
    HandOff(cur, next);
    h := Move(activated.value, next);
  }

  /** The loop of the controller's processFlow, over the snapshots `kids` and
      `made` of the tasks' child maps, classes and ids, and `in0`, the start
      task's input bodies. */
  method RunFlowOver(start: FlowNodeTask, ghost tasks: set<FlowNodeTask>,
                     ghost kids: map<FlowNodeTask, Option<OMap<FlowNodeTask>>>, ghost made: Classes,
                     ghost in0: (Option<string>, Option<string>))
    returns (r: Result<FlowNodeTask>, ghost trace: seq<FlowNodeTask>, ghost acts: seq<string>,
             ghost calls: seq<CallRecord>)
    requires start in tasks && Snapshot(tasks, kids, made) && ClosedKids(kids)
    requires in0 == (start.inputRequestBody, start.inputResponseBody)
    modifies tasks`outputRequestBody, tasks`outputResponseBody, tasks`activatedNodeId
    modifies tasks`inputRequestBody, tasks`inputResponseBody, tasks`flowCtx
    ensures 1 <= |trace| <= RunMaxDepth + 1 && |acts| == |trace| - 1 && trace[|trace| - 1] in tasks
    ensures |calls| == if |trace| == RunMaxDepth + 1 then RunMaxDepth else |trace|
    ensures Walked(kids, start, trace, acts) && Calls(kids, made, trace, acts, calls, in0, false)
    ensures r.Ok? ==>
      && |trace| <= RunMaxDepth && r.value == trace[|trace| - 1] && kids[r.value].None?
      && r.value.flowCtx == old(start.flowCtx) && r.value.Outputs() == calls[|calls| - 1].after
    ensures |trace| == RunMaxDepth + 1 ==> r == Fail(Failure(Generic, PathTooLong, []))
    ensures r.Fail? && |trace| <= RunMaxDepth ==>
      var last, c := trace[|trace| - 1], calls[|calls| - 1];
      && kids[last].Some?
      && (c.after.activated.None? || c.after.activated.value !in kids[last].value.vals)
      && r.failure == Failure(Generic, NoActivatedChild, [last.nodeName.GetOr("undefined")])
  {
    var loopCnt := 0;
    var cur := start;
    trace := [];
    acts := [];
    calls := [];
    ghost var ctx0 := start.flowCtx;
    while true
      invariant 0 <= loopCnt <= RunMaxDepth && |trace| == loopCnt && |acts| == loopCnt && |calls| == loopCnt
      invariant cur in tasks && cur.flowCtx == ctx0
      invariant (cur.inputRequestBody, cur.inputResponseBody) == NextInputs(calls, in0)
      invariant Path(kids, start, trace, acts, cur)
      invariant Calls(kids, made, trace, acts, calls, in0, false) && Snapshot(tasks, kids, made)
      decreases RunMaxDepth - loopCnt
    {
      loopCnt := loopCnt + 1;
      if loopCnt > RunMaxDepth {
        CallsLonger(kids, made, trace, acts, calls, in0, false, cur);
        return Fail(Failure(Generic, PathTooLong, [])), trace + [cur], acts, calls;
      }
      var h, c := RunStep(cur, tasks, kids, made);
      CallsExtend(kids, made, trace, acts, calls, in0, false, cur, c);
      if !h.Move? {
        r := if h.Stop? then Ok(cur) else Fail(h.failure);
        return r, trace + [cur], acts, calls + [c];
      }
      PathExtend(kids, start, trace, acts, cur, h.act, h.next);
      trace := trace + [cur];
      acts := acts + [h.act];
      calls := calls + [c];
      cur := h.next;
    }
  }

  /** processFlow of the controller: call the current task, stop when it has
      no child map, otherwise move to the activated child, handing it the
      output bodies and the flow context.  Unlike the utility's walk, an
      empty child map does not end the walk: its lookup fails and the walk
      throws; and the calls are not awaited, so a call that throws does not
      stop the walk.  At most MAX_DEPTH (256) calls are made.  `trace` is the
      tasks reached, in order, `acts` the child key each step followed and
      `calls` the calls made, in order. */
  method RunFlow(start: FlowNodeTask, ghost tasks: set<FlowNodeTask>)
    returns (r: Result<FlowNodeTask>, ghost trace: seq<FlowNodeTask>, ghost acts: seq<string>,
             ghost calls: seq<CallRecord>)
    requires start in tasks && Closed(tasks)
    modifies tasks`outputRequestBody, tasks`outputResponseBody, tasks`activatedNodeId
    modifies tasks`inputRequestBody, tasks`inputResponseBody, tasks`flowCtx
    ensures forall t :: t in tasks ==> t.childNodes == old(t.childNodes)
    ensures 1 <= |trace| <= RunMaxDepth + 1 && trace[0] == start && |acts| == |trace| - 1
    ensures forall t :: t in trace ==> t in tasks
    ensures forall i :: 0 <= i < |trace| - 1 ==>
      trace[i].childNodes.Some? && trace[i].childNodes.value.Get(acts[i]) == Some(trace[i + 1])
    ensures |calls| == if |trace| == RunMaxDepth + 1 then RunMaxDepth else |trace|
    ensures forall i :: 0 <= i < |calls| ==> Made(trace[i].behaviour, trace[i].childNodes, trace[i].nodeId, calls[i])
    ensures calls[0].inReq == old(start.inputRequestBody) && calls[0].inResp == old(start.inputResponseBody)
    ensures forall i :: 0 <= i < |calls| - 1 ==>
      calls[i + 1].inReq == calls[i].after.request && calls[i + 1].inResp == calls[i].after.response
    ensures forall i :: 0 <= i < |acts| ==> calls[i].after.activated == Some(acts[i])
    ensures r.Ok? ==> |trace| <= RunMaxDepth && r.value == trace[|trace| - 1] && r.value.childNodes.None?
    ensures r.Ok? ==> r.value.flowCtx == old(start.flowCtx)
    ensures r.Ok? ==>
      && r.value.outputRequestBody == calls[|calls| - 1].after.request
      && r.value.outputResponseBody == calls[|calls| - 1].after.response
    ensures |trace| == RunMaxDepth + 1 ==> r == Fail(Failure(Generic, PathTooLong, []))
    ensures r.Fail? && |trace| <= RunMaxDepth ==>
      var last, c := trace[|trace| - 1], calls[|calls| - 1];
      && last.childNodes.Some?
      && (c.after.activated.None? || c.after.activated.value !in last.childNodes.value.vals)
      && r.failure == Failure(Generic, NoActivatedChild, [last.nodeName.GetOr("undefined")])
  {
    ghost var kids := map t | t in tasks :: t.childNodes;
    ghost var made: Classes := map t | t in tasks :: (t.behaviour, t.nodeId);
    assert Snapshot(tasks, kids, made) && ClosedKids(kids);
    r, trace, acts, calls := RunFlowOver(start, tasks, kids, made, (start.inputRequestBody, start.inputResponseBody));
    WalkedClose(kids, made, tasks, start, trace, acts);
    CallsClose(kids, made, tasks, trace, acts, calls, (old(start.inputRequestBody), old(start.inputResponseBody)), false);
  }

  // ---------------------------------------------------------------------------
  // process

  /** process: the request's method must be the flow's, then makeRtFlow
      builds the task graph, the walk runs it, and the last task's output
      body and response header map become the response.  A failure of any
      step is passed on; a last task without a response header map makes the
      header copy fail as reading from undefined does. */
  method Process(ef: ExecFlow, flowMethod: HttpMethod, verb: HttpMethod, req: Request,
                 systemHeader: OMap<Option<string>>, queue: Option<seq<LogEntry>>)
    returns (r: Result<HttpResponse>, ghost trace: seq<FlowNodeTask>)
    requires systemHeader.Valid()
    ensures ValidateHttpMethod(flowMethod, verb).Throw? ==> r == Fail(ValidateHttpMethod(flowMethod, verb).failure)
    ensures ValidateHttpMethod(flowMethod, verb) == Pass && NodeIdsOf(ef.flow.edges, ef.index).Fail? ==>
      r == Fail(NodeIdsOf(ef.flow.edges, ef.index).failure)
    ensures (&& ValidateHttpMethod(flowMethod, verb) == Pass && NodeIdsOf(ef.flow.edges, ef.index).Ok?
             && MissingClass(NodeIdsOf(ef.flow.edges, ef.index).value.all, ef.classes).Some?) ==>
      r == Fail(Failure(DataConsistency, NoNodeClass,
                        [MissingClass(NodeIdsOf(ef.flow.edges, ef.index).value.all, ef.classes).value]))
    ensures r.Ok? ==>
      && ValidateHttpMethod(flowMethod, verb) == Pass
      && 1 <= |trace| <= RunMaxDepth
      && trace[|trace| - 1].childNodes.None?
      && trace[|trace| - 1].responseHeader.Some?
      && r.value == HttpResponse(200, Rewritten(systemHeader, trace[|trace| - 1].responseHeader.value),
                                 trace[|trace| - 1].outputResponseBody)
  {
    trace := [];
    var check := ValidateHttpMethod(flowMethod, verb);
    if check.Throw? {
      return Fail(check.failure), trace;
    }
    var made, tasks, ctx := MakeRtFlow(req, ef, queue);
    if made.Fail? {
      return Fail(made.failure), trace;
    }
    ghost var ids := NodeIdsOf(ef.flow.edges, ef.index).value;
    NodeIdsNonEmpty(ef.flow.edges, ef.index);
    WiredClosed(tasks, ef.flow.edges, ids.ends);
    var start := made.value;
    assert start in tasks.Values;
    var run;
    ghost var acts, calls;
    run, trace, acts, calls := RunFlow(start, tasks.Values);
    if run.Fail? {
      return Fail(run.failure), trace;
    }
    var last := run.value;
    if last.responseHeader.None? {
      return Fail(Failure(TypeErr, NoResultHeader, [])), trace;
    }
    var resp := RewriteResponse(last.outputResponseBody, last.responseHeader.value, systemHeader);
    r := Ok(resp);
  }

  // ---------------------------------------------------------------------------
  // vsAdapterRaw and vsAdapter

  /** vsAdapterRaw rethrows whatever the run throws as an adapter error with
      the same message. */
  function Rewrap(f: Failure): (g: Failure)
    ensures g.kind == Adapter && g.reason == f.reason && g.subjects == f.subjects
  {
    Failure(Adapter, f.reason, f.subjects)
  }

  /** The response header map handed to makeRtFlow: the system headers the
      request defines, with their values. */
  function DefinedValues(systemHeader: OMap<Option<string>>): (h: Headers)
    ensures forall k :: k in h <==> k in systemHeader.vals && systemHeader.vals[k].Some?
    ensures forall k :: k in h ==> h[k] == systemHeader.vals[k].value
  {
    map k | k in systemHeader.vals && systemHeader.vals[k].Some? :: systemHeader.vals[k].value
  }

  /** The getProjectFlow call at the head of process, seen from the
      controller: the row must exist and be online, and the cache stays
      bounded. */
  method FetchProject(service: VsProjectService, contextPath: string, db: Option<DbProject>, g: Graph, now: int,
                      load: (string, seq<int>) -> Result<Behaviour>,
                      parse: string -> Result<Option<HttpProp>>)
    returns (r: Result<VsExecFlow>)
    modifies service
    ensures db.None? ==> r == Fail(Failure(Adapter, ProjectNotFound, [contextPath]))
    ensures db.Some? && db.value.state == Offline ==> r == Fail(Failure(Adapter, ProjectOffline, [contextPath]))
    ensures old(service.Bounded()) && contextPath != "" ==> service.Bounded()
  {
    r := service.GetProjectFlow(contextPath, db, g, now, load, parse);
  }

  /** vsAdapterRaw: load the project of the path, then process the request;
      any failure becomes an adapter error. */
  method VsAdapterRaw(service: VsProjectService, contextPath: string, req: Request, verb: HttpMethod,
                      systemHeader: OMap<Option<string>>, db: Option<DbProject>, g: Graph, now: int,
                      load: (string, seq<int>) -> Result<Behaviour>,
                      parse: string -> Result<Option<HttpProp>>, queue: Option<seq<LogEntry>>)
    returns (r: Result<HttpResponse>, ghost trace: seq<FlowNodeTask>)
    requires systemHeader.Valid()
    modifies service
    ensures r.Fail? ==> r.failure.kind == Adapter
    ensures db.None? ==> r == Fail(Failure(Adapter, ProjectNotFound, [contextPath]))
    ensures db.Some? && db.value.state == Offline ==> r == Fail(Failure(Adapter, ProjectOffline, [contextPath]))
    ensures r.Ok? ==>
      && 1 <= |trace| <= RunMaxDepth
      && trace[|trace| - 1].responseHeader.Some?
      && r.value == HttpResponse(200, Rewritten(systemHeader, trace[|trace| - 1].responseHeader.value),
                                 trace[|trace| - 1].outputResponseBody)
    ensures old(service.Bounded()) && contextPath != "" ==> service.Bounded()
  {
    var project := FetchProject(service, contextPath, db, g, now, load, parse);
    r, trace := RunFetched(project, verb, req, systemHeader, queue);
  }

  /** The rest of vsAdapterRaw once the project is fetched: a failed fetch
      or a failed run is rethrown as an adapter error. */
  method RunFetched(project: Result<VsExecFlow>, verb: HttpMethod, req: Request,
                    systemHeader: OMap<Option<string>>, queue: Option<seq<LogEntry>>)
    returns (r: Result<HttpResponse>, ghost trace: seq<FlowNodeTask>)
    requires systemHeader.Valid()
    ensures r.Fail? ==> r.failure.kind == Adapter
    ensures project.Fail? ==> r == Fail(Rewrap(project.failure))
    ensures r.Ok? ==>
      && 1 <= |trace| <= RunMaxDepth
      && trace[|trace| - 1].responseHeader.Some?
      && r.value == HttpResponse(200, Rewritten(systemHeader, trace[|trace| - 1].responseHeader.value),
                                 trace[|trace| - 1].outputResponseBody)
  {
    trace := [];
    if project.Fail? {
      return Fail(Rewrap(project.failure)), trace;
    }
    var ef := project.value;
    var run;
    run, trace := Process(ef.exec, ef.verb, verb, req, systemHeader, queue);
    if run.Fail? {
      return Fail(Rewrap(run.failure)), trace;
    }
    r := run;
  }

  /** vsAdapter: the entry point for a request under `contextPath` with the
      raw method, the Content-Type value, the body, the header entries and
      the query parameters. The method and content type are checked, the
      request headers copied and the system headers picked out and copied to
      the response header map, then the flow runs. A response carries status
      200, the request's system headers under their names whatever the flow
      sets, and a Content-Type. */
  method VsAdapter(service: VsProjectService, contextPath: string, raw: string, contentType: Option<string>,
                   body: Option<string>, es: seq<HeaderEntry>, requestParam: Headers,
                   db: Option<DbProject>, g: Graph, now: int,
                   load: (string, seq<int>) -> Result<Behaviour>,
                   parse: string -> Result<Option<HttpProp>>, queue: Option<seq<LogEntry>>)
    returns (r: Result<HttpResponse>)
    modifies service
    ensures Admit(raw, contentType, body).Fail? ==>
      r == Fail(Admit(raw, contentType, body).failure) && service.State() == old(service.State())
    ensures r.Fail? ==> r.failure.kind == Adapter
    ensures r.Ok? ==> Admit(raw, contentType, body).Ok? && r.value.statusCode == 200
    ensures r.Ok? ==> forall i :: 0 <= i < |SystemHeaderNames| ==>
      && SystemHeaderNames[i] in r.value.headers
      && r.value.headers[SystemHeaderNames[i]] == HeaderOf(HeaderMapOf(es, contentType), SystemHeaderNames[i])
    ensures r.Ok? ==> ContentTypeHeader in r.value.headers && r.value.headers[ContentTypeHeader].Some?
    ensures old(service.Bounded()) && contextPath != "" ==> service.Bounded()
  {
    var verb := VsHttpMethod(raw);
    AdmitSpec(raw, contentType, body);
    if verb.Fail? {
      return Fail(verb.failure);
    }
    var requestHeader := MakeRequestHeaderMap(es, contentType);
    var systemHeader := SystemHeaders(requestHeader);
    SystemHeadersSpec(requestHeader);
    var responseHeader := DefinedValues(systemHeader);
    var admitted := Admit(raw, contentType, body);
    if admitted.Fail? {
      return Fail(admitted.failure);
    }
    var req := Request(admitted.value.body, requestHeader, requestParam, responseHeader);
    ghost var trace;
    r, trace := VsAdapterRaw(service, contextPath, req, admitted.value.verb, systemHeader, db, g, now, load, parse, queue);
    if r.Ok? {
      ResponseHeaders(requestHeader, trace[|trace| - 1].responseHeader.value);
    }
  }
}
