// The runtime node task (FlowNodeTask): one object per node of a running
// flow, holding the request context shared by the flow, the bodies handed
// from node to node, and the child tasks the node may activate.  The two
// copies of the class (libs/utils/vs/flow-node-task.ts and
// libs/vs/flow-node-task.ts) have the same fields and the same default
// `call()`; they differ in their constructors, which are modelled both.

module FlowTask {
  import opened Wrappers
  import opened Enums
  import opened OrderedMaps

  type Headers = map<string, string>

  /** The header the user log reads its message id from
      (XApiConstants.HEADER_IDEMPOTENT_ID). */
  const LogMsgIdHeader := "X-Msg-Id"

  const ManyChildren := "node has more than one child node"

  /** An opossum circuit breaker, held by reference and never looked into. */
  datatype Breaker = Breaker(name: string)

  /** What an overriding `call()` of a generated class produces: the two
      output bodies, and the child it activates (None leaves the previous
      activation in place). */
  datatype StepResult = StepResult(
    outputRequestBody: Option<string>,
    outputResponseBody: Option<string>,
    activated: Option<string>)

  /** The class a task was built from: the base class with its default
      `call()`, or a generated subclass whose `call()` is an opaque step of
      the two input bodies that may throw. */
  datatype Behaviour =
    | DefaultCall
    | Override(step: (Option<string>, Option<string>) -> Result<StepResult>)

  /** One user-log record (VsNodeUserLogSaveReq without its clock fields). */
  datatype LogEntry = LogEntry(
    nodeId: Option<string>,
    nodeName: Option<string>,
    taskType: Option<TaskType>,
    userLog: string,
    msgId: Option<string>)

  /** The per-request flow context map, shared by reference by every task
      of one run. */
  class FlowCtx {
    var entries: map<string, string>

    constructor ()
      ensures entries == map[]
    {
      entries := map[];
    }
  }

  /** JavaScript truthiness of an optional string. */
  predicate Truthy(s: Option<string>)
  {
    s.Some? && s.value != ""
  }

  /** The request fields a task copies from its construction arguments. */
  datatype RequestFields = RequestFields(
    nodeId: Option<string>,
    body: Option<string>,
    requestHeader: Option<Headers>,
    requestParam: Option<Headers>,
    responseHeader: Option<Headers>)

  /** The fields of a task other than its child map and input bodies. */
  datatype TaskState = TaskState(
    behaviour: Behaviour,
    fields: RequestFields,
    circuitBreaker: Option<Breaker>,
    nodeName: Option<string>,
    taskType: Option<TaskType>,
    flowCtx: Option<FlowCtx>,
    blockingQueue: Option<seq<LogEntry>>,
    activatedNodeId: Option<string>,
    outputRequestBody: Option<string>,
    outputResponseBody: Option<string>,
    moreData: bool)

  /** What the constructor of libs/utils/vs/flow-node-task.ts stores. */
  function CtorFields(nodeId: Option<string>, body: Option<string>, requestHeader: Option<Headers>,
                      requestParam: Option<Headers>, responseHeader: Option<Headers>): RequestFields
  {
    if Truthy(nodeId) then
      RequestFields(nodeId, body, Some(requestHeader.GetOr(map[])), Some(requestParam.GetOr(map[])),
                    Some(responseHeader.GetOr(map[])))
    else RequestFields(None, None, None, None, None)
  }

  /** The constructor stores nothing for an absent or empty node id; for any
      other it keeps the id and the body and never leaves a map unset, an
      absent argument becoming an empty map. */
  lemma CtorFieldsSpec(nodeId: Option<string>, body: Option<string>, requestHeader: Option<Headers>,
                       requestParam: Option<Headers>, responseHeader: Option<Headers>)
    ensures var f := CtorFields(nodeId, body, requestHeader, requestParam, responseHeader);
      && (f.nodeId.Some? <==> Truthy(nodeId))
      && (Truthy(nodeId) ==>
            f.nodeId == nodeId && f.body == body && f.requestHeader.Some? && f.requestParam.Some? && f.responseHeader.Some?)
      && (Truthy(nodeId) && requestHeader.Some? ==> f.requestHeader == requestHeader)
      && (Truthy(nodeId) && requestHeader.None? ==> f.requestHeader == Some(map[]))
      && (Truthy(nodeId) && requestParam.Some? ==> f.requestParam == requestParam)
      && (Truthy(nodeId) && requestParam.None? ==> f.requestParam == Some(map[]))
      && (Truthy(nodeId) && responseHeader.Some? ==> f.responseHeader == responseHeader)
      && (Truthy(nodeId) && responseHeader.None? ==> f.responseHeader == Some(map[]))
      && (!Truthy(nodeId) ==> f == RequestFields(None, None, None, None, None))
  {
  }

  /** The decision of the default `call()`: no child map or an empty one
      activates nothing, a single child is activated, and more than one
      throws, naming the node. */
  function DefaultActivation<V>(children: Option<OMap<V>>, nodeId: Option<string>): Result<Option<string>>
  {
    match children
    case None => Ok(None)
    case Some(m) =>
      if m.Size() == 0 then Ok(None)
      else if m.Size() == 1 then Ok(Some(m.keys[0]))
      else Fail(Failure(Generic, ManyChildren, [nodeId.GetOr("undefined")]))
  }

  /** What a call may change on its task: the two output bodies and the
      activated child id. */
  datatype TaskOutputs = TaskOutputs(
    request: Option<string>,
    response: Option<string>,
    activated: Option<string>)

  /** The effect of one `call()` of a task built from `b`, with child map
      `children` and id `nodeId`, on the input bodies `inReq` and `inResp`,
      when the task held `prev` before: how the call ends and what the task
      holds afterwards.  The default call sets the outputs before it decides
      and keeps them when it throws; a generated class that throws leaves
      everything as it was. */
  function CallOf<V>(b: Behaviour, children: Option<OMap<V>>, nodeId: Option<string>,
                     inReq: Option<string>, inResp: Option<string>, prev: TaskOutputs): (e: (Outcome, TaskOutputs))
    ensures e.0.Throw? ==> e.1.activated == prev.activated
    ensures e.1.activated.None? ==> prev.activated.None?
  {
    match b
    case DefaultCall =>
      (match DefaultActivation(children, nodeId)
       case Ok(a) => (Pass, TaskOutputs(inReq, inResp, if a.Some? then a else prev.activated))
       case Fail(f) => (Throw(f), TaskOutputs(inReq, inResp, prev.activated)))
    case Override(step) =>
      match step(inReq, inResp)
      case Ok(s) =>
        (Pass, TaskOutputs(s.outputRequestBody, s.outputResponseBody,
                           if s.activated.Some? then s.activated else prev.activated))
      case Fail(f) => (Throw(f), prev)
  }

  /** One call, as a walk sees it: its inputs, what its task held before,
      how it ended and what the task held after. */
  datatype CallRecord = CallRecord(
    inReq: Option<string>,
    inResp: Option<string>,
    before: TaskOutputs,
    outcome: Outcome,
    after: TaskOutputs)

  /** `c` is a call of a task built from `b` with child map `children` and id
      `nodeId`. */
  ghost predicate Made<V>(b: Behaviour, children: Option<OMap<V>>, nodeId: Option<string>, c: CallRecord)
  {
    CallOf(b, children, nodeId, c.inReq, c.inResp, c.before) == (c.outcome, c.after)
  }

  /** A key list with each key once has as many entries as its key set. */
  lemma {:induction false} DistinctKeysCount(keys: seq<string>, ks: set<string>)
    requires Distinct(keys) && forall k :: k in ks <==> k in keys
    ensures |ks| == |keys|
    decreases |keys|
  {
    if |keys| > 0 {
      var init := keys[..|keys| - 1];
      var last := keys[|keys| - 1];
      assert keys == init + [last];
      assert Distinct(init) by {
        forall i, j | 0 <= i < j < |init| ensures init[i] != init[j] {
          assert init[i] == keys[i] && init[j] == keys[j];
        }
      }
      assert last !in init by {
        forall i | 0 <= i < |init| ensures init[i] != last {
          assert init[i] == keys[i];
        }
      }
      forall k ensures k in ks - {last} <==> k in init {
        assert k in keys <==> k in init || k == last;
      }
      DistinctKeysCount(init, ks - {last});
    } else {
      assert forall k :: k !in ks;
      assert ks == {};
    }
  }

  /** `size` of a valid table is the number of its entries. */
  lemma SizeIsCount<V>(m: OMap<V>)
    requires m.Valid()
    ensures m.Size() == |m.vals.Keys|
  {
    DistinctKeysCount(m.keys, m.vals.Keys);
  }

  /** The default `call()`, stated over the entries of the child map: it
      passes without activation exactly when there is no child, it activates
      the one child when there is exactly one, and it throws exactly when
      there are several. */
  lemma DefaultActivationSpec<V>(children: Option<OMap<V>>, nodeId: Option<string>)
    requires children.Some? ==> children.value.Valid()
    ensures DefaultActivation(children, nodeId) == Ok(None)
      <==> children.None? || children.value.vals == map[]
    ensures forall k :: (DefaultActivation(children, nodeId) == Ok(Some(k)) <==> children.Some? && children.value.vals.Keys == {k})
    ensures DefaultActivation(children, nodeId).Fail?
      <==> children.Some? && |children.value.vals.Keys| > 1
    ensures DefaultActivation(children, nodeId).Fail? ==>
      DefaultActivation(children, nodeId).failure == Failure(Generic, ManyChildren, [nodeId.GetOr("undefined")])
  {
    if children.Some? {
      var m := children.value;
      SizeIsCount(m);
      if m.Size() == 1 {
        assert m.keys[0] in m.vals;
        forall k ensures m.vals.Keys == {k} <==> k == m.keys[0] {
          if m.vals.Keys == {k} {
            assert m.keys[0] in m.vals.Keys;
          }
        }
      }
      if m.Size() == 0 {
        assert m.vals.Keys == {};
      }
    }
  }

  /** `call()` case by case.  The default call copies the inputs to the
      outputs, and then: with no child it passes and keeps the activation,
      with one child it passes and activates it, with several it throws
      naming the node.  A generated class passes exactly when its step
      succeeds, taking the step's outputs and the child it names (or the
      previous one), and otherwise throws the step's failure and changes
      nothing. */
  lemma CallOfSpec<V>(b: Behaviour, children: Option<OMap<V>>, nodeId: Option<string>,
                      inReq: Option<string>, inResp: Option<string>, prev: TaskOutputs)
    requires children.Some? ==> children.value.Valid()
    ensures var e := CallOf(b, children, nodeId, inReq, inResp, prev);
      && (b.DefaultCall? ==> e.1.request == inReq && e.1.response == inResp)
      && (b.DefaultCall? && (children.None? || children.value.vals == map[]) ==>
            e.0 == Pass && e.1.activated == prev.activated)
      && (b.DefaultCall? ==> forall k :: children.Some? && children.value.vals.Keys == {k} ==>
            e.0 == Pass && e.1.activated == Some(k))
      && (b.DefaultCall? && children.Some? && |children.value.vals.Keys| > 1 ==>
            e.0 == Throw(Failure(Generic, ManyChildren, [nodeId.GetOr("undefined")])) && e.1.activated == prev.activated)
      && (b.Override? ==> (e.0 == Pass <==> b.step(inReq, inResp).Ok?))
      && (b.Override? && b.step(inReq, inResp).Ok? ==>
            var s := b.step(inReq, inResp).value;
            e.1.request == s.outputRequestBody && e.1.response == s.outputResponseBody
            && e.1.activated == (if s.activated.Some? then s.activated else prev.activated))
      && (b.Override? && b.step(inReq, inResp).Fail? ==> e == (Throw(b.step(inReq, inResp).failure), prev))
  {
    DefaultActivationSpec(children, nodeId);
  }

  class FlowNodeTask {
    var behaviour: Behaviour
    var nodeId: Option<string>
    var nodeName: Option<string>
    var taskType: Option<TaskType>
    /** The child tasks by node id; None marks an end node. */
    var childNodes: Option<OMap<FlowNodeTask>>
    var activatedNodeId: Option<string>
    var requestHeader: Option<Headers>
    var requestParam: Option<Headers>
    var responseHeader: Option<Headers>
    var circuitBreaker: Option<Breaker>
    /** The original request body. */
    var body: Option<string>
    var inputRequestBody: Option<string>
    var inputResponseBody: Option<string>
    var outputRequestBody: Option<string>
    var outputResponseBody: Option<string>
    var flowCtx: Option<FlowCtx>
    var moreData: bool
    /** The user-log queue, as the records added to it. */
    var blockingQueue: Option<seq<LogEntry>>

    /** The constructor of libs/utils/vs/flow-node-task.ts: the child map
        starts empty; the request fields are set only for a non-empty node
        id, and then an absent map becomes an empty one. */
    constructor (behaviour: Behaviour, nodeId: Option<string>, body: Option<string>,
                 requestHeader: Option<Headers>, requestParam: Option<Headers>,
                 responseHeader: Option<Headers>, circuitBreaker: Option<Breaker>)
      ensures this.behaviour == behaviour
      ensures childNodes == Some(Empty()) && !moreData
      ensures nodeName.None? && taskType.None? && activatedNodeId.None? && flowCtx.None?
      ensures inputRequestBody.None? && inputResponseBody.None?
      ensures outputRequestBody.None? && outputResponseBody.None? && blockingQueue.None?
      ensures Fields() == CtorFields(nodeId, body, requestHeader, requestParam, responseHeader)
      ensures this.circuitBreaker == if Truthy(nodeId) then circuitBreaker else None
    {
      this.behaviour := behaviour;
      nodeName := None;
      taskType := None;
      childNodes := Some(Empty());
      activatedNodeId := None;
      inputRequestBody := None;
      inputResponseBody := None;
      outputRequestBody := None;
      outputResponseBody := None;
      flowCtx := None;
      moreData := false;
      blockingQueue := None;
      if Truthy(nodeId) {
        this.nodeId := nodeId;
        this.body := body;
        this.requestHeader := Some(requestHeader.GetOr(map[]));
        this.requestParam := Some(requestParam.GetOr(map[]));
        this.responseHeader := Some(responseHeader.GetOr(map[]));
        this.circuitBreaker := circuitBreaker;
      } else {
        this.nodeId := None;
        this.body := None;
        this.requestHeader := None;
        this.requestParam := None;
        this.responseHeader := None;
        this.circuitBreaker := None;
      }
    }

    /** The default constructor of libs/vs/flow-node-task.ts: the child map
        and the header, parameter and flow-context maps start empty, every
        other field unset. */
    constructor Init(behaviour: Behaviour)
      ensures this.behaviour == behaviour
      ensures childNodes == Some(Empty()) && !moreData
      ensures requestHeader == Some(map[]) && requestParam == Some(map[]) && responseHeader == Some(map[])
      ensures flowCtx.Some? && fresh(flowCtx.value) && flowCtx.value.entries == map[]
      ensures nodeId.None? && nodeName.None? && taskType.None? && activatedNodeId.None?
      ensures circuitBreaker.None? && body.None? && blockingQueue.None?
      ensures inputRequestBody.None? && inputResponseBody.None?
      ensures outputRequestBody.None? && outputResponseBody.None?
    {
      this.behaviour := behaviour;
      nodeId := None;
      nodeName := None;
      taskType := None;
      childNodes := Some(Empty());
      activatedNodeId := None;
      requestHeader := Some(map[]);
      requestParam := Some(map[]);
      responseHeader := Some(map[]);
      circuitBreaker := None;
      body := None;
      inputRequestBody := None;
      inputResponseBody := None;
      outputRequestBody := None;
      outputResponseBody := None;
      var ctx := new FlowCtx();
      flowCtx := Some(ctx);
      moreData := false;
      blockingQueue := None;
    }

    /** `FlowNodeTask.create`: the default construction, then exactly the
        node id, the body and the three maps as given. */
    static method Create(behaviour: Behaviour, nodeId: Option<string>, body: Option<string>,
                         requestHeader: Option<Headers>, requestParam: Option<Headers>,
                         responseHeader: Option<Headers>) returns (task: FlowNodeTask)
      ensures fresh(task) && task.behaviour == behaviour
      ensures task.nodeId == nodeId && task.body == body
      ensures task.requestHeader == requestHeader && task.requestParam == requestParam
      ensures task.responseHeader == responseHeader
      ensures task.childNodes == Some(Empty()) && !task.moreData
      ensures task.flowCtx.Some? && fresh(task.flowCtx.value) && task.flowCtx.value.entries == map[]
      ensures task.nodeName.None? && task.taskType.None? && task.activatedNodeId.None?
      ensures task.circuitBreaker.None? && task.blockingQueue.None?
      ensures task.inputRequestBody.None? && task.inputResponseBody.None?
      ensures task.outputRequestBody.None? && task.outputResponseBody.None?
    {
      task := new FlowNodeTask.Init(behaviour);
      task.nodeId := nodeId;
      task.body := body;
      task.requestHeader := requestHeader;
      task.requestParam := requestParam;
      task.responseHeader := responseHeader;
    }

    /** `FlowNodeTask.createWithCircuitBreaker`: `create`, then the breaker. */
    static method CreateWithCircuitBreaker(behaviour: Behaviour, nodeId: Option<string>, body: Option<string>,
                                           requestHeader: Option<Headers>, requestParam: Option<Headers>,
                                           responseHeader: Option<Headers>, circuitBreaker: Option<Breaker>)
      returns (task: FlowNodeTask)
      ensures fresh(task) && task.behaviour == behaviour
      ensures task.nodeId == nodeId && task.body == body
      ensures task.requestHeader == requestHeader && task.requestParam == requestParam
      ensures task.responseHeader == responseHeader && task.circuitBreaker == circuitBreaker
      ensures task.childNodes == Some(Empty()) && !task.moreData
      ensures task.flowCtx.Some? && fresh(task.flowCtx.value) && task.flowCtx.value.entries == map[]
      ensures task.nodeName.None? && task.taskType.None? && task.activatedNodeId.None?
      ensures task.blockingQueue.None?
      ensures task.inputRequestBody.None? && task.inputResponseBody.None?
      ensures task.outputRequestBody.None? && task.outputResponseBody.None?
    {
      task := Create(behaviour, nodeId, body, requestHeader, requestParam, responseHeader);
      task.circuitBreaker := circuitBreaker;
    }

    /** What a call may change. */
    function Outputs(): TaskOutputs
      reads this`outputRequestBody, this`outputResponseBody, this`activatedNodeId
    {
      TaskOutputs(outputRequestBody, outputResponseBody, activatedNodeId)
    }

    /** `call()`: its outcome and the task's new outputs and activation are
        CallOf of the task's class, child map, id and input bodies, and of
        what it held before. */
    method Call() returns (r: Outcome)
      modifies this`outputRequestBody, this`outputResponseBody, this`activatedNodeId
      ensures (r, Outputs()) == CallOf(behaviour, childNodes, nodeId, inputRequestBody, inputResponseBody, old(Outputs()))
    {
      match behaviour
      case DefaultCall =>
        outputRequestBody := inputRequestBody;
        outputResponseBody := inputResponseBody;
        match DefaultActivation(childNodes, nodeId) {
          case Ok(None) =>
            r := Pass;
          case Ok(Some(k)) =>
            activatedNodeId := Some(k);
            r := Pass;
          case Fail(e) =>
            r := Throw(e);
        }
      case Override(step) =>
        match step(inputRequestBody, inputResponseBody)
        case Ok(s) =>
          outputRequestBody := s.outputRequestBody;
          outputResponseBody := s.outputResponseBody;
          if s.activated.Some? {
            activatedNodeId := s.activated;
          }
          r := Pass;
        case Fail(e) =>
          r := Throw(e);
    }

    /** The request fields of the task. */
    function Fields(): RequestFields
      reads this`nodeId, this`body, this`requestHeader, this`requestParam, this`responseHeader
    {
      RequestFields(nodeId, body, requestHeader, requestParam, responseHeader)
    }

    /** Every field but the child map and the two input bodies. */
    function State(): TaskState
      reads this`behaviour, this`nodeId, this`body, this`requestHeader, this`requestParam
      reads this`responseHeader, this`circuitBreaker, this`nodeName, this`taskType, this`flowCtx
      reads this`blockingQueue, this`activatedNodeId, this`outputRequestBody, this`outputResponseBody
      reads this`moreData
    {
      TaskState(behaviour, Fields(), circuitBreaker, nodeName, taskType, flowCtx, blockingQueue,
                activatedNodeId, outputRequestBody, outputResponseBody, moreData)
    }

    function HasMoreData(): (b: bool)
      reads this
    {
      moreData
    }

    method EnableMoreData()
      modifies this`moreData
      ensures HasMoreData()
    {
      moreData := true;
    }

    method DisableMoreData()
      modifies this`moreData
      ensures !HasMoreData()
    {
      moreData := false;
    }

    /** `LOG`: nothing without a queue; otherwise one record with the
        node's identity and the message id of the request header (none when
        the task has no header map, where the source's read throws and is
        caught) is added, whatever else happens. */
    method Log(userLog: string)
      modifies this`blockingQueue
      ensures old(blockingQueue).None? ==> blockingQueue.None?
      ensures old(blockingQueue).Some? ==>
        blockingQueue == Some(old(blockingQueue).value + [LogEntry(nodeId, nodeName, taskType, userLog, MsgIdOf(requestHeader))])
    {
      if blockingQueue.Some? {
        var entry := LogEntry(nodeId, nodeName, taskType, userLog, MsgIdOf(requestHeader));
        blockingQueue := Some(blockingQueue.value + [entry]);
      }
    }

    method SetNodeName(v: Option<string>)
      modifies this`nodeName
      ensures nodeName == v
    {
      nodeName := v;
    }

    method SetTaskType(v: Option<TaskType>)
      modifies this`taskType
      ensures taskType == v
    {
      taskType := v;
    }

    method SetChildNodes(v: Option<OMap<FlowNodeTask>>)
      modifies this`childNodes
      ensures childNodes == v
    {
      childNodes := v;
    }

    method SetCircuitBreaker(v: Option<Breaker>)
      modifies this`circuitBreaker
      ensures circuitBreaker == v
    {
      circuitBreaker := v;
    }

    method SetInputRequestBody(v: Option<string>)
      modifies this`inputRequestBody
      ensures inputRequestBody == v
    {
      inputRequestBody := v;
    }

    method SetInputResponseBody(v: Option<string>)
      modifies this`inputResponseBody
      ensures inputResponseBody == v
    {
      inputResponseBody := v;
    }

    method SetFlowCtx(v: Option<FlowCtx>)
      modifies this`flowCtx
      ensures flowCtx == v
    {
      flowCtx := v;
    }

    method SetBlockingQueue(v: Option<seq<LogEntry>>)
      modifies this`blockingQueue
      ensures blockingQueue == v
    {
      blockingQueue := v;
    }
  }

  /** The message id a user-log record carries. */
  function MsgIdOf(requestHeader: Option<Headers>): (r: Option<string>)
    ensures r.Some? <==> requestHeader.Some? && LogMsgIdHeader in requestHeader.value
  {
    match requestHeader
    case None => None
    case Some(h) => if LogMsgIdHeader in h then Some(h[LogMsgIdHeader]) else None
  }
}
