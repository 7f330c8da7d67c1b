// The runtime side of the flow utility (libs/utils/vs/flow-node.util.ts):
// makeRtFlow, which turns a compiled flow into a graph of node tasks, and
// processFlow, which walks that graph from the start task.

module RuntimeFlow {
  import opened Wrappers
  import opened Enums
  import opened FlowModel
  import opened OrderedMaps
  import opened Topology
  import opened FlowTask

  const NoNodeClass := "no compiled class for node"
  const PathTooLong := "flow path longer than the maximum"
  const NoActivatedChild := "activated child node not found"

  /** FlowNodeUtil.MAX_DEPTH: the most `call()`s one walk makes. */
  const MaxDepth := 10000

  // ---------------------------------------------------------------------------
  // The shape of the task graph

  /** The targets of the links leaving `id`, each once, in the order a
      JavaScript Map keeps them when the links are added one by one. */
  function ChildIds(edges: seq<Edge>, id: string): seq<string>
    decreases |edges|
  {
    if |edges| == 0 then []
    else
      var a := ChildIds(edges[..|edges| - 1], id);
      var e := edges[|edges| - 1];
      if e.sourceId == id && e.targetId !in a then a + [e.targetId] else a
  }

  predicate LinksTo(edges: seq<Edge>, id: string, x: string)
  {
    exists i :: 0 <= i < |edges| && edges[i].sourceId == id && edges[i].targetId == x
  }

  /** A task's child keys are exactly the targets of its outgoing links,
      each once. */
  lemma {:induction false} ChildIdsSpec(edges: seq<Edge>, id: string)
    ensures Distinct(ChildIds(edges, id))
    ensures forall x :: x in ChildIds(edges, id) <==> LinksTo(edges, id, x)
    decreases |edges|
  {
    if |edges| > 0 {
      var init := edges[..|edges| - 1];
      ChildIdsSpec(init, id);
      forall x ensures LinksTo(edges, id, x)
        <==> LinksTo(init, id, x) || (edges[|edges| - 1].sourceId == id && edges[|edges| - 1].targetId == x)
      {
        if LinksTo(edges, id, x) {
          var i :| 0 <= i < |edges| && edges[i].sourceId == id && edges[i].targetId == x;
          if i < |init| {
            assert init[i] == edges[i];
          }
        }
        if LinksTo(init, id, x) {
          var i :| 0 <= i < |init| && init[i].sourceId == id && init[i].targetId == x;
          assert edges[i] == init[i];
        }
      }
    }
  }

  /** Adding one more link. */
  lemma ChildIdsStep(edges: seq<Edge>, j: nat, id: string)
    requires j < |edges|
    ensures ChildIds(edges[..j + 1], id)
      == if edges[j].sourceId == id && edges[j].targetId !in ChildIds(edges[..j], id)
         then ChildIds(edges[..j], id) + [edges[j].targetId]
         else ChildIds(edges[..j], id)
  {
    assert edges[..j + 1][..j] == edges[..j];
  }

  /** The first of `ids`, in order, that has no compiled class. */
  function MissingClass(ids: seq<string>, classes: map<string, Behaviour>): Option<string>
    decreases |ids|
  {
    if |ids| == 0 then None
    else
      match MissingClass(ids[..|ids| - 1], classes)
      case Some(x) => Some(x)
      case None => if ids[|ids| - 1] in classes then None else Some(ids[|ids| - 1])
  }

  /** Some id lacks a class exactly when one is reported, and the one
      reported is such an id. */
  lemma {:induction false} MissingClassSpec(ids: seq<string>, classes: map<string, Behaviour>)
    ensures MissingClass(ids, classes).None? <==> forall k :: k in ids ==> k in classes
    ensures MissingClass(ids, classes).Some? ==>
      MissingClass(ids, classes).value in ids && MissingClass(ids, classes).value !in classes
    decreases |ids|
  {
    if |ids| > 0 {
      var init := ids[..|ids| - 1];
      MissingClassSpec(init, classes);
      assert ids == init + [ids[|ids| - 1]];
    }
  }

  lemma MissingClassStep(ids: seq<string>, classes: map<string, Behaviour>, i: nat)
    requires i < |ids| && MissingClass(ids[..i], classes).None?
    ensures MissingClass(ids[..i + 1], classes) == if ids[i] in classes then None else Some(ids[i])
  {
    assert ids[..i + 1][..i] == ids[..i];
  }

  /** The node name a task gets: the known name, or '-' when it is missing
      or empty. */
  function NameOrDash(names: map<string, string>, id: string): (r: string)
  {
    if id in names && names[id] != "" then names[id] else "-"
  }

  lemma NameOrDashSpec(names: map<string, string>, id: string)
    ensures NameOrDash(names, id) != ""
    ensures id in names && names[id] != "" ==> NameOrDash(names, id) == names[id]
    ensures (id !in names || names[id] == "") ==> NameOrDash(names, id) == "-"
  {
  }

  function TaskTypeOf(index: map<string, Node>, id: string): Option<TaskType>
  {
    if id in index then Some(index[id].taskType) else None
  }

  function BreakerOf(breakers: map<string, Breaker>, id: string): Option<Breaker>
  {
    if id in breakers then Some(breakers[id]) else None
  }

  /** The request context makeRtFlow hands to every task. */
  datatype Request = Request(
    body: Option<string>,
    requestHeader: Headers,
    requestParam: Headers,
    responseHeader: Headers)

  /** The parts of the compiled flow makeRtFlow reads (VsExecFlow). */
  datatype ExecFlow = ExecFlow(
    flow: StFlow,
    classes: map<string, Behaviour>,
    names: map<string, string>,
    index: map<string, Node>,
    breakers: map<string, Breaker>)

  /** The state of a task as makeRtFlow builds it, before any child is
      wired in: the constructor with the node id, the body and the three
      maps (which it keeps only for a non-empty id), then the breaker, the
      name, the task type, the shared flow context and the log queue. */
  function BuiltState(id: string, req: Request, ef: ExecFlow, ctx: FlowCtx,
                      queue: Option<seq<LogEntry>>): TaskState
    requires id in ef.classes
  {
    TaskState(ef.classes[id],
              CtorFields(Some(id), req.body, Some(req.requestHeader), Some(req.requestParam),
                         Some(req.responseHeader)),
              BreakerOf(ef.breakers, id), Some(NameOrDash(ef.names, id)), TaskTypeOf(ef.index, id),
              Some(ctx), queue, None, None, None, false)
  }

  ghost predicate BuiltAs(t: FlowNodeTask, id: string, req: Request, ef: ExecFlow, ctx: FlowCtx,
                          queue: Option<seq<LogEntry>>)
    requires id in ef.classes
    reads t`behaviour, t`nodeId, t`body, t`requestHeader, t`requestParam, t`responseHeader
    reads t`circuitBreaker, t`nodeName, t`taskType, t`flowCtx, t`blockingQueue
    reads t`activatedNodeId, t`outputRequestBody, t`outputResponseBody, t`moreData
  {
    t.State() == BuiltState(id, req, ef, ctx, queue)
  }

  /** The state makeRtFlow gives the task of each id that has a class. */
  ghost function Expected(ids: seq<string>, req: Request, ef: ExecFlow, ctx: FlowCtx,
                          queue: Option<seq<LogEntry>>): map<string, TaskState>
  {
    map k | k in ids && k in ef.classes :: BuiltState(k, req, ef, ctx, queue)
  }

  /** Every task is in the state `expected` gives its id, and no task but
      those in `except` has an input body yet. */
  ghost predicate Prepared(tasks: map<string, FlowNodeTask>, expected: map<string, TaskState>,
                           except: set<FlowNodeTask>)
    reads tasks.Values`behaviour, tasks.Values`nodeId, tasks.Values`body
    reads tasks.Values`requestHeader, tasks.Values`requestParam, tasks.Values`responseHeader
    reads tasks.Values`circuitBreaker, tasks.Values`nodeName, tasks.Values`taskType
    reads tasks.Values`flowCtx, tasks.Values`blockingQueue, tasks.Values`activatedNodeId
    reads tasks.Values`outputRequestBody, tasks.Values`outputResponseBody, tasks.Values`moreData
    reads tasks.Values`inputRequestBody, tasks.Values`inputResponseBody
  {
    forall k :: k in tasks ==>
      && k in expected && tasks[k].State() == expected[k]
      && (tasks[k] !in except ==> tasks[k].inputRequestBody.None? && tasks[k].inputResponseBody.None?)
  }

  /** What Prepared promises about the tasks of makeRtFlow: each has a class
      and was built from it as makeRtFlow builds a task. */
  lemma PreparedBuilt(tasks: map<string, FlowNodeTask>, ids: seq<string>, req: Request, ef: ExecFlow,
                      ctx: FlowCtx, queue: Option<seq<LogEntry>>, except: set<FlowNodeTask>)
    requires Prepared(tasks, Expected(ids, req, ef, ctx, queue), except)
    ensures forall k :: k in tasks ==> k in ids && k in ef.classes && BuiltAs(tasks[k], k, req, ef, ctx, queue)
  {
  }

  /** Every task still has the empty child map of its constructor. */
  ghost predicate NoChildren(tasks: map<string, FlowNodeTask>)
    reads tasks.Values`childNodes
  {
    forall k :: k in tasks ==> tasks[k].childNodes == Some(Empty())
  }

  /** The child map of `t` holds exactly `keys`, in that order, each bound
      to the task of that id. */
  ghost predicate ChildrenAre(t: FlowNodeTask, keys: seq<string>, tasks: map<string, FlowNodeTask>)
    reads t`childNodes
  {
    && t.childNodes.Some?
    && t.childNodes.value.keys == keys
    && (forall k :: k in t.childNodes.value.vals <==> k in keys)
    && (forall k :: k in t.childNodes.value.vals ==> k in tasks && t.childNodes.value.vals[k] == tasks[k])
  }

  /** Different ids have different tasks. */
  ghost predicate Injective(tasks: map<string, FlowNodeTask>)
  {
    forall a, b :: a in tasks && b in tasks && a != b ==> tasks[a] != tasks[b]
  }

  /** A map back from tasks to ids makes the tasks distinct. */
  lemma OwnerInjective(tasks: map<string, FlowNodeTask>, owner: map<FlowNodeTask, string>)
    requires forall k :: k in tasks ==> tasks[k] in owner && owner[tasks[k]] == k
    ensures Injective(tasks)
  {
  }

  /** Every child map of the tasks is a valid table whose tasks are among
      them: a walk from one of them stays among them. */
  ghost predicate Closed(tasks: set<FlowNodeTask>)
    reads tasks`childNodes
  {
    forall t :: t in tasks && t.childNodes.Some? ==>
      t.childNodes.value.Valid()
      && forall k :: k in t.childNodes.value.vals ==> t.childNodes.value.vals[k] in tasks
  }

  /** Closed, over a snapshot of the child maps. */
  ghost predicate ClosedKids(kids: map<FlowNodeTask, Option<OMap<FlowNodeTask>>>)
  {
    forall t :: t in kids && kids[t].Some? ==>
      kids[t].value.Valid() && forall k :: k in kids[t].value.vals ==> kids[t].value.vals[k] in kids
  }

  /** The graph makeRtFlow promises: end tasks have no child map, every
      other task has one child per distinct target of its links. */
  ghost predicate Wired(tasks: map<string, FlowNodeTask>, edges: seq<Edge>, ends: seq<string>)
    reads tasks.Values`childNodes
  {
    forall id :: id in tasks ==>
      if id in ends then tasks[id].childNodes.None? else ChildrenAre(tasks[id], ChildIds(edges, id), tasks)
  }

  /** A wired graph is closed. */
  lemma WiredClosed(tasks: map<string, FlowNodeTask>, edges: seq<Edge>, ends: seq<string>)
    requires Wired(tasks, edges, ends)
    ensures Closed(tasks.Values)
  {
    forall t | t in tasks.Values && t.childNodes.Some?
      ensures t.childNodes.value.Valid()
      ensures forall k :: k in t.childNodes.value.vals ==> t.childNodes.value.vals[k] in tasks.Values
    {
      var id :| id in tasks && tasks[id] == t;
      ChildIdsSpec(edges, id);
    }
  }

  /** Once getNodeIdsMap has passed there is a node and a link, so the two
      emptiness checks of makeRtFlow never throw; the start node is a valid
      id and is not an end node. */
  lemma NodeIdsNonEmpty(edges: seq<Edge>, index: map<string, Node>)
    requires NodeIdsOf(edges, index).Ok?
    ensures |NodeIdsOf(edges, index).value.all| > 0 && |edges| > 0
    ensures |NodeIdsOf(edges, index).value.start| == 1
    ensures NodeIdsOf(edges, index).value.start[0] in NodeIdsOf(edges, index).value.all
    ensures NodeIdsOf(edges, index).value.start[0] !in NodeIdsOf(edges, index).value.ends
    ensures forall k :: k in NodeIdsOf(edges, index).value.ends ==> k in NodeIdsOf(edges, index).value.all
  {
    var ids := NodeIdsOf(edges, index).value;
    assert ids.start[0] in ids.start;
    AllIdsSpec(edges);
    assert IsEndpoint(edges, ids.start[0]);
  }

  // ---------------------------------------------------------------------------
  // makeRtFlow

  /** makeRtFlow: after getNodeIdsMap, one task per valid id (a missing
      class throws, naming the first such id), each link puts the target's
      task into the source's child map under the target id, end tasks lose
      their child map, and the start task receives the body as its input.
      The failure of getNodeIdsMap is passed on. */
  method MakeRtFlow(req: Request, ef: ExecFlow, queue: Option<seq<LogEntry>>)
    returns (r: Result<FlowNodeTask>, tasks: map<string, FlowNodeTask>, ctx: FlowCtx)
    ensures NodeIdsOf(ef.flow.edges, ef.index).Fail? ==> r == Fail(NodeIdsOf(ef.flow.edges, ef.index).failure)
    ensures NodeIdsOf(ef.flow.edges, ef.index).Ok? ==>
      var ids := NodeIdsOf(ef.flow.edges, ef.index).value;
      && (r.Fail? <==> MissingClass(ids.all, ef.classes).Some?)
      && (r.Fail? ==> r.failure == Failure(DataConsistency, NoNodeClass, [MissingClass(ids.all, ef.classes).value]))
    ensures r.Ok? ==>
      var ids := NodeIdsOf(ef.flow.edges, ef.index).value;
      && NodeIdsOf(ef.flow.edges, ef.index).Ok?
      && (forall k :: k in tasks <==> k in ids.all)
      && r.value == tasks[ids.start[0]]
      && fresh(ctx) && ctx.entries == map[]
      && Injective(tasks)
      && (forall k :: k in tasks ==> fresh(tasks[k]))
      && Prepared(tasks, Expected(ids.all, req, ef, ctx, queue), {r.value})
      && Wired(tasks, ef.flow.edges, ids.ends)
      && r.value.inputRequestBody == req.body && r.value.inputResponseBody.None?
  {
    tasks := map[];
    ctx := new FlowCtx();
    var idsR := GetNodeIdsMap(ef.flow, ef.index);
    if idsR.Fail? {
      return Fail(idsR.failure), tasks, ctx;
    }
    var ids := idsR.value;
    var edges := ef.flow.edges;
    NodeIdsNonEmpty(edges, ef.index);
    if |ids.all| == 0 || |edges| == 0 {
      // the empty-node and empty-link checks of the source
      assert false;
    }
    NodeIdsAllEndpoints(edges, ef.index);
    r, tasks := Assemble(ids, edges, req, ef, ctx, queue);
  }

  /** makeRtFlow once the node ids are known: the tasks, the links, the
      end nodes and the start task's input. */
  method Assemble(ids: NodeIds, edges: seq<Edge>, req: Request, ef: ExecFlow, ctx: FlowCtx,
                  queue: Option<seq<LogEntry>>)
    returns (r: Result<FlowNodeTask>, tasks: map<string, FlowNodeTask>)
    requires |ids.start| == 1 && ids.start[0] in ids.all
    requires forall x :: x in ids.all <==> IsEndpoint(edges, x)
    requires forall k :: k in ids.ends ==> k in ids.all
    ensures r.Fail? <==> MissingClass(ids.all, ef.classes).Some?
    ensures r.Fail? ==> r.failure == Failure(DataConsistency, NoNodeClass, [MissingClass(ids.all, ef.classes).value])
    ensures r.Ok? ==>
      && (forall k :: k in tasks <==> k in ids.all)
      && r.value == tasks[ids.start[0]]
      && Injective(tasks)
      && (forall k :: k in tasks ==> fresh(tasks[k]))
      && Prepared(tasks, Expected(ids.all, req, ef, ctx, queue), {r.value})
      && Wired(tasks, edges, ids.ends)
      && r.value.inputRequestBody == req.body && r.value.inputResponseBody.None?
  {
    tasks := map[];
    var made := MakeTasks(ids.all, req, ef, ctx, queue);
    if made.Fail? {
      return Fail(made.failure), tasks;
    }
    tasks := made.value;
    var start := tasks[ids.start[0]];
    ghost var expected := Expected(ids.all, req, ef, ctx, queue);
    LinkChildren(tasks, edges, expected);
    UnlinkEnds(tasks, edges, ids.ends, expected);
    PrepareStart(tasks, start, req.body, expected, edges, ids.ends);
    r := Ok(start);
  }

  /** One task of makeRtFlow: makeFlowNodeTask (the constructor with the
      node id, the body and the three maps), then the setters. */
  method BuildTask(id: string, req: Request, ef: ExecFlow, ctx: FlowCtx, queue: Option<seq<LogEntry>>)
    returns (t: FlowNodeTask)
    requires id in ef.classes
    ensures fresh(t) && BuiltAs(t, id, req, ef, ctx, queue)
    ensures t.childNodes == Some(Empty()) && t.inputRequestBody.None? && t.inputResponseBody.None?
  {
    t := new FlowNodeTask(ef.classes[id], Some(id), req.body, Some(req.requestHeader),
                          Some(req.requestParam), Some(req.responseHeader), None);
    t.circuitBreaker := BreakerOf(ef.breakers, id);
    t.nodeName := Some(NameOrDash(ef.names, id));
    t.taskType := TaskTypeOf(ef.index, id);
    t.flowCtx := Some(ctx);
    t.blockingQueue := queue;
  }

  /** The task-creation loop of makeRtFlow: a task per id, in order, or the
      failure for the first id without a class. */
  method MakeTasks(all: seq<string>, req: Request, ef: ExecFlow, ctx: FlowCtx, queue: Option<seq<LogEntry>>)
    returns (r: Result<map<string, FlowNodeTask>>)
    ensures r.Fail? <==> MissingClass(all, ef.classes).Some?
    ensures r.Fail? ==> r.failure == Failure(DataConsistency, NoNodeClass, [MissingClass(all, ef.classes).value])
    ensures r.Ok? ==> (forall k :: k in r.value <==> k in all) && Injective(r.value)
    ensures r.Ok? ==> (forall k :: k in r.value ==> fresh(r.value[k]))
    ensures r.Ok? ==> Prepared(r.value, Expected(all, req, ef, ctx, queue), {}) && NoChildren(r.value)
  {
    var tasks: map<string, FlowNodeTask> := map[];
    ghost var owner: map<FlowNodeTask, string> := map[];
    ghost var expected := Expected(all, req, ef, ctx, queue);
    var i := 0;
    while i < |all|
      invariant 0 <= i <= |all|
      invariant MissingClass(all[..i], ef.classes).None?
      invariant Table(tasks, owner, all[..i], expected)
      invariant forall k :: k in tasks ==> fresh(tasks[k])
    {
      var id := all[i];
      MissingClassStep(all, ef.classes, i);
      if id !in ef.classes {
        MissingClassSticks(all, ef.classes, i + 1);
        return Fail(Failure(DataConsistency, NoNodeClass, [id]));
      }
      var t := BuildTask(id, req, ef, ctx, queue);
      assert t.State() == expected[id];
      ExtendTable(tasks, owner, all, i, t, expected);
      tasks := tasks[id := t];
      owner := owner[t := id];
      i := i + 1;
    }
    assert all[..i] == all;
    OwnerInjective(tasks, owner);
    MissingClassSpec(all, ef.classes);
    r := Ok(tasks);
  }

  /** The table of MakeTasks after the ids `done`: one task per id, told
      apart by `owner`, each built as makeRtFlow builds it. */
  ghost predicate Table(tasks: map<string, FlowNodeTask>, owner: map<FlowNodeTask, string>, done: seq<string>,
                        expected: map<string, TaskState>)
    reads tasks.Values`behaviour, tasks.Values`nodeId, tasks.Values`body
    reads tasks.Values`requestHeader, tasks.Values`requestParam, tasks.Values`responseHeader
    reads tasks.Values`circuitBreaker, tasks.Values`nodeName, tasks.Values`taskType
    reads tasks.Values`flowCtx, tasks.Values`blockingQueue, tasks.Values`activatedNodeId
    reads tasks.Values`outputRequestBody, tasks.Values`outputResponseBody, tasks.Values`moreData
    reads tasks.Values`childNodes, tasks.Values`inputRequestBody, tasks.Values`inputResponseBody
  {
    && (forall k :: k in tasks <==> k in done)
    && (forall k :: k in tasks ==> tasks[k] in owner && owner[tasks[k]] == k)
    && Prepared(tasks, expected, {}) && NoChildren(tasks)
  }

  /** Adding a freshly built task for a new id keeps the table. */
  lemma ExtendTable(tasks: map<string, FlowNodeTask>, owner: map<FlowNodeTask, string>, all: seq<string>,
                    i: nat, t: FlowNodeTask, expected: map<string, TaskState>)
    requires i < |all| && Table(tasks, owner, all[..i], expected) && t !in owner
    requires all[i] in expected && t.State() == expected[all[i]]
    requires t.childNodes == Some(Empty()) && t.inputRequestBody.None? && t.inputResponseBody.None?
    ensures Table(tasks[all[i] := t], owner[t := all[i]], all[..i + 1], expected)
  {
    assert all[..i + 1] == all[..i] + [all[i]];
  }

  /** The link loop of makeRtFlow, which changes nothing but the child maps. */
  method LinkChildren(tasks: map<string, FlowNodeTask>, edges: seq<Edge>, ghost expected: map<string, TaskState>)
    requires forall x :: IsEndpoint(edges, x) ==> x in tasks
    requires Injective(tasks) && NoChildren(tasks) && Prepared(tasks, expected, {})
    modifies tasks.Values`childNodes
    ensures forall k :: k in tasks ==> ChildrenAre(tasks[k], ChildIds(edges, k), tasks)
    ensures Prepared(tasks, expected, {})
  {
    WireChildren(tasks, edges);
  }

  /** The end-node loop of makeRtFlow, which changes nothing but the child
      maps. */
  method UnlinkEnds(tasks: map<string, FlowNodeTask>, edges: seq<Edge>, ends: seq<string>,
                    ghost expected: map<string, TaskState>)
    requires forall k :: k in ends ==> k in tasks
    requires Injective(tasks) && Prepared(tasks, expected, {})
    requires forall k :: k in tasks ==> ChildrenAre(tasks[k], ChildIds(edges, k), tasks)
    modifies tasks.Values`childNodes
    ensures Wired(tasks, edges, ends) && Prepared(tasks, expected, {})
  {
    ClearEnds(tasks, edges, ends);
  }

  /** The start task receives the request body, and no response body, as
      its input; nothing else changes. */
  method PrepareStart(tasks: map<string, FlowNodeTask>, start: FlowNodeTask, body: Option<string>,
                      ghost expected: map<string, TaskState>, ghost edges: seq<Edge>, ghost ends: seq<string>)
    requires Prepared(tasks, expected, {}) && Wired(tasks, edges, ends)
    modifies start`inputRequestBody, start`inputResponseBody
    ensures start.inputRequestBody == body && start.inputResponseBody.None?
    ensures Prepared(tasks, expected, {start}) && Wired(tasks, edges, ends)
  {
    start.inputRequestBody, start.inputResponseBody := body, None;
  }

  /** The link loop of makeRtFlow: every link adds its target's task to its
      source's child map. */
  method WireChildren(tasks: map<string, FlowNodeTask>, edges: seq<Edge>)
    requires forall x :: IsEndpoint(edges, x) ==> x in tasks
    requires Injective(tasks) && NoChildren(tasks)
    modifies tasks.Values`childNodes
    ensures forall k :: k in tasks ==> ChildrenAre(tasks[k], ChildIds(edges, k), tasks)
  {
    var j := 0;
    while j < |edges|
      invariant 0 <= j <= |edges|
      invariant forall k :: k in tasks ==> ChildrenAre(tasks[k], ChildIds(edges[..j], k), tasks)
    {
      var e := edges[j];
      assert IsEndpoint(edges, e.sourceId) && IsEndpoint(edges, e.targetId);
      var s := tasks[e.sourceId];
      var t := tasks[e.targetId];
      WireStep(tasks, edges, j, s.childNodes.value);
      s.childNodes := Some(s.childNodes.value.Put(e.targetId, t));
      j := j + 1;
    }
    assert edges[..j] == edges;
  }

  /** The end-node loop of makeRtFlow: end tasks lose their child map. */
  method ClearEnds(tasks: map<string, FlowNodeTask>, edges: seq<Edge>, ends: seq<string>)
    requires forall k :: k in ends ==> k in tasks
    requires Injective(tasks)
    requires forall k :: k in tasks ==> ChildrenAre(tasks[k], ChildIds(edges, k), tasks)
    modifies tasks.Values`childNodes
    ensures Wired(tasks, edges, ends)
  {
    var m := 0;
    while m < |ends|
      invariant 0 <= m <= |ends|
      invariant forall k :: k in tasks ==>
        if k in ends[..m] then tasks[k].childNodes.None? else ChildrenAre(tasks[k], ChildIds(edges, k), tasks)
    {
      var end := tasks[ends[m]];
      assert ends[..m + 1] == ends[..m] + [ends[m]];
      end.childNodes := None;
      m := m + 1;
    }
    assert ends[..m] == ends;
  }

  lemma {:induction false} MissingClassSticks(ids: seq<string>, classes: map<string, Behaviour>, k: nat)
    requires k <= |ids| && MissingClass(ids[..k], classes).Some?
    ensures MissingClass(ids, classes) == MissingClass(ids[..k], classes)
    decreases |ids| - k
  {
    if k < |ids| {
      assert ids[..k + 1][..k] == ids[..k];
      MissingClassSticks(ids, classes, k + 1);
    } else {
      assert ids[..k] == ids;
    }
  }

  /** The child map of the link's source after the link is added. */
  lemma WireStep(tasks: map<string, FlowNodeTask>, edges: seq<Edge>, j: nat, cm: OMap<FlowNodeTask>)
    requires j < |edges| && edges[j].sourceId in tasks && edges[j].targetId in tasks
    requires ChildrenAre(tasks[edges[j].sourceId], ChildIds(edges[..j], edges[j].sourceId), tasks)
    requires tasks[edges[j].sourceId].childNodes == Some(cm)
    ensures forall k :: k != edges[j].sourceId ==> ChildIds(edges[..j + 1], k) == ChildIds(edges[..j], k)
    ensures cm.Put(edges[j].targetId, tasks[edges[j].targetId]).keys == ChildIds(edges[..j + 1], edges[j].sourceId)
    ensures forall k :: k in cm.Put(edges[j].targetId, tasks[edges[j].targetId]).vals
                    <==> k in ChildIds(edges[..j + 1], edges[j].sourceId)
    ensures forall k :: k in cm.Put(edges[j].targetId, tasks[edges[j].targetId]).vals ==>
      k in tasks && cm.Put(edges[j].targetId, tasks[edges[j].targetId]).vals[k] == tasks[k]
  {
    forall k ensures ChildIds(edges[..j + 1], k) == if edges[j].sourceId == k && edges[j].targetId !in ChildIds(edges[..j], k)
        then ChildIds(edges[..j], k) + [edges[j].targetId] else ChildIds(edges[..j], k) {
      ChildIdsStep(edges, j, k);
    }
  }

  // ---------------------------------------------------------------------------
  // processFlow

  /** Where the utility's walk stops: no child map, or an empty one. */
  predicate IsLeaf(children: Option<OMap<FlowNodeTask>>)
  {
    children.None? || children.value.Size() == 0
  }

  /** The class and id of each task, as a snapshot. */
  type Classes = map<FlowNodeTask, (Behaviour, Option<string>)>

  /** `kids` and `made` are the child maps and the classes and ids of
      exactly the tasks `tasks`. */
  ghost predicate Snapshot(tasks: set<FlowNodeTask>, kids: map<FlowNodeTask, Option<OMap<FlowNodeTask>>>, made: Classes)
    reads tasks`childNodes, tasks`behaviour, tasks`nodeId
  {
    && (forall t :: t in kids ==> t in tasks)
    && forall t :: t in tasks ==>
         t in kids && t in made && t.childNodes == kids[t] && made[t] == (t.behaviour, t.nodeId)
  }

  /** The `i`th step of a walk: the `i`th task has a child map whose entry
      under the `i`th key is the next task. */
  ghost predicate Linked(kids: map<FlowNodeTask, Option<OMap<FlowNodeTask>>>,
                         trace: seq<FlowNodeTask>, acts: seq<string>, i: int)
  {
    && 0 <= i < |acts| && i + 1 < |trace| && trace[i] in kids
    && kids[trace[i]].Some? && kids[trace[i]].value.Get(acts[i]) == Some(trace[i + 1])
  }

  /** The whole walk: `trace` leads from `start` through the child maps
      `kids` along the keys `acts`, one fewer than the tasks reached. */
  ghost predicate Walked(kids: map<FlowNodeTask, Option<OMap<FlowNodeTask>>>, start: FlowNodeTask,
                         trace: seq<FlowNodeTask>, acts: seq<string>)
  {
    && |trace| == |acts| + 1 && trace[0] == start
    && (forall t :: t in trace ==> t in kids)
    && (forall i {:trigger Linked(kids, trace, acts, i)} :: 0 <= i < |acts| ==> Linked(kids, trace, acts, i))
  }

  /** A walk so far: `trace` and `acts` lead from `start` to `cur`. */
  ghost predicate Path(kids: map<FlowNodeTask, Option<OMap<FlowNodeTask>>>, start: FlowNodeTask,
                       trace: seq<FlowNodeTask>, acts: seq<string>, cur: FlowNodeTask)
  {
    |acts| == |trace| && Walked(kids, start, trace + [cur], acts)
  }

  /** One more step of the walk. */
  lemma PathExtend(kids: map<FlowNodeTask, Option<OMap<FlowNodeTask>>>, start: FlowNodeTask,
                   trace: seq<FlowNodeTask>, acts: seq<string>, cur: FlowNodeTask, act: string, next: FlowNodeTask)
    requires Path(kids, start, trace, acts, cur) && next in kids
    requires kids[cur].Some? && kids[cur].value.Get(act) == Some(next)
    ensures Path(kids, start, trace + [cur], acts + [act], next)
  {
    var tr, tr', ac := trace + [cur], trace + [cur] + [next], acts + [act];
    forall i | 0 <= i < |ac|
      ensures Linked(kids, tr', ac, i)
    {
      if i < |acts| {
        assert Linked(kids, tr, acts, i);
        assert tr'[i] == tr[i] && tr'[i + 1] == tr[i + 1] && ac[i] == acts[i];
      } else {
        assert tr'[i] == cur && tr'[i + 1] == next && ac[i] == act;
      }
    }
    assert forall t :: t in tr' ==> t in tr || t == next;
  }

  /** A walk over the snapshot is a walk over the child maps themselves. */
  lemma WalkedClose(kids: map<FlowNodeTask, Option<OMap<FlowNodeTask>>>, made: Classes, tasks: set<FlowNodeTask>,
                    start: FlowNodeTask, trace: seq<FlowNodeTask>, acts: seq<string>)
    requires Walked(kids, start, trace, acts) && Snapshot(tasks, kids, made)
    ensures forall t :: t in trace ==> t in tasks
    ensures forall i :: 0 <= i < |acts| ==>
      trace[i].childNodes.Some? && trace[i].childNodes.value.Get(acts[i]) == Some(trace[i + 1])
  {
    forall i | 0 <= i < |acts|
      ensures trace[i].childNodes.Some? && trace[i].childNodes.value.Get(acts[i]) == Some(trace[i + 1])
    {
      assert Linked(kids, trace, acts, i);
    }
  }

  /** The `i`th call is a call of the `i`th task. */
  ghost predicate CallMade(kids: map<FlowNodeTask, Option<OMap<FlowNodeTask>>>, made: Classes,
                           trace: seq<FlowNodeTask>, calls: seq<CallRecord>, i: int)
  {
    && 0 <= i < |calls| && i < |trace| && trace[i] in kids && trace[i] in made
    && Made(made[trace[i]].0, kids[trace[i]], made[trace[i]].1, calls[i])
  }

  /** The `i + 1`st call had as inputs the outputs the `i`th left. */
  ghost predicate Chained(calls: seq<CallRecord>, i: int)
  {
    0 <= i < |calls| - 1 && calls[i + 1].inReq == calls[i].after.request && calls[i + 1].inResp == calls[i].after.response
  }

  /** The `i`th call left the activation the `i`th step followed (and
      passed, when the walk awaits its calls). */
  ghost predicate Followed(calls: seq<CallRecord>, acts: seq<string>, awaited: bool, i: int)
  {
    0 <= i < |acts| && i < |calls| && calls[i].after.activated == Some(acts[i]) && (awaited ==> calls[i].outcome == Pass)
  }

  /** `calls` are the calls a walk made on the first |calls| tasks of `trace`,
      over the snapshots `kids` and `made`: each is a call of its task, the
      first had the inputs `in0`, each later one had as inputs the outputs the
      one before left, and each call the walk stepped from left the
      activation the step followed (and passed, when the walk awaits its
      calls). */
  ghost predicate Calls(kids: map<FlowNodeTask, Option<OMap<FlowNodeTask>>>, made: Classes,
                        trace: seq<FlowNodeTask>, acts: seq<string>, calls: seq<CallRecord>,
                        in0: (Option<string>, Option<string>), awaited: bool)
  {
    && |acts| <= |calls| <= |trace|
    && (forall i {:trigger CallMade(kids, made, trace, calls, i)} :: 0 <= i < |calls| ==> CallMade(kids, made, trace, calls, i))
    && (|calls| > 0 ==> calls[0].inReq == in0.0 && calls[0].inResp == in0.1)
    && (forall i {:trigger Chained(calls, i)} :: 0 <= i < |calls| - 1 ==> Chained(calls, i))
    && (forall i {:trigger Followed(calls, acts, awaited, i)} :: 0 <= i < |acts| ==> Followed(calls, acts, awaited, i))
  }

  /** The inputs the next call of a walk gets: the first call's, or what the
      last call left. */
  function NextInputs(calls: seq<CallRecord>, in0: (Option<string>, Option<string>)): (Option<string>, Option<string>)
  {
    if |calls| == 0 then in0 else (calls[|calls| - 1].after.request, calls[|calls| - 1].after.response)
  }

  /** One more call, and possibly one more step. */
  lemma CallsExtend(kids: map<FlowNodeTask, Option<OMap<FlowNodeTask>>>, made: Classes,
                    trace: seq<FlowNodeTask>, acts: seq<string>, calls: seq<CallRecord>,
                    in0: (Option<string>, Option<string>), awaited: bool, cur: FlowNodeTask, c: CallRecord)
    requires Calls(kids, made, trace, acts, calls, in0, awaited) && |calls| == |trace| && |acts| == |trace|
    requires cur in kids && cur in made && Made(made[cur].0, kids[cur], made[cur].1, c)
    requires (c.inReq, c.inResp) == NextInputs(calls, in0)
    ensures Calls(kids, made, trace + [cur], acts, calls + [c], in0, awaited)
    ensures forall k :: c.after.activated == Some(k) && (awaited ==> c.outcome == Pass) ==>
      Calls(kids, made, trace + [cur], acts + [k], calls + [c], in0, awaited)
  {
    var tr, cs := trace + [cur], calls + [c];
    forall i | 0 <= i < |cs|
      ensures CallMade(kids, made, tr, cs, i)
    {
      if i < |calls| {
        assert CallMade(kids, made, trace, calls, i);
        assert tr[i] == trace[i] && cs[i] == calls[i];
      }
    }
    forall i | 0 <= i < |cs| - 1
      ensures Chained(cs, i)
    {
      if i < |calls| - 1 {
        assert Chained(calls, i);
      }
      assert cs[i] == calls[i];
    }
    forall i | 0 <= i < |acts|
      ensures Followed(cs, acts, awaited, i)
    {
      assert Followed(calls, acts, awaited, i);
      assert cs[i] == calls[i];
    }
    forall k | c.after.activated == Some(k) && (awaited ==> c.outcome == Pass)
      ensures Calls(kids, made, tr, acts + [k], cs, in0, awaited)
    {
      var ac := acts + [k];
      forall i | 0 <= i < |ac|
        ensures Followed(cs, ac, awaited, i)
      {
        if i < |acts| {
          assert Followed(cs, acts, awaited, i);
          assert ac[i] == acts[i];
        }
      }
    }
  }

  /** A task reached but not called. */
  lemma CallsLonger(kids: map<FlowNodeTask, Option<OMap<FlowNodeTask>>>, made: Classes,
                    trace: seq<FlowNodeTask>, acts: seq<string>, calls: seq<CallRecord>,
                    in0: (Option<string>, Option<string>), awaited: bool, cur: FlowNodeTask)
    requires Calls(kids, made, trace, acts, calls, in0, awaited)
    ensures Calls(kids, made, trace + [cur], acts, calls, in0, awaited)
  {
    forall i | 0 <= i < |calls|
      ensures CallMade(kids, made, trace + [cur], calls, i)
    {
      assert CallMade(kids, made, trace, calls, i);
      assert (trace + [cur])[i] == trace[i];
    }
  }

  /** The calls over the snapshots are calls of the tasks themselves, and
      they follow one another as the walk does. */
  lemma CallsClose(kids: map<FlowNodeTask, Option<OMap<FlowNodeTask>>>, made: Classes, tasks: set<FlowNodeTask>,
                   trace: seq<FlowNodeTask>, acts: seq<string>, calls: seq<CallRecord>,
                   in0: (Option<string>, Option<string>), awaited: bool)
    requires Calls(kids, made, trace, acts, calls, in0, awaited) && Snapshot(tasks, kids, made)
    requires forall t :: t in trace ==> t in tasks
    ensures forall i :: 0 <= i < |calls| ==> Made(trace[i].behaviour, trace[i].childNodes, trace[i].nodeId, calls[i])
    ensures forall i :: 0 <= i < |calls| - 1 ==>
      calls[i + 1].inReq == calls[i].after.request && calls[i + 1].inResp == calls[i].after.response
    ensures forall i :: 0 <= i < |acts| ==>
      calls[i].after.activated == Some(acts[i]) && (awaited ==> calls[i].outcome == Pass)
  {
    forall i | 0 <= i < |calls|
      ensures Made(trace[i].behaviour, trace[i].childNodes, trace[i].nodeId, calls[i])
    {
      assert CallMade(kids, made, trace, calls, i);
      assert trace[i] in tasks;
    }
    forall i | 0 <= i < |calls| - 1
      ensures calls[i + 1].inReq == calls[i].after.request && calls[i + 1].inResp == calls[i].after.response
    {
      assert Chained(calls, i);
    }
    forall i | 0 <= i < |acts|
      ensures calls[i].after.activated == Some(acts[i]) && (awaited ==> calls[i].outcome == Pass)
    {
      assert Followed(calls, acts, awaited, i);
    }
  }

  /** The step from a task to its activated child: the child's inputs are
      the task's outputs, and it shares the task's flow context. */
  method HandOff(from: FlowNodeTask, to: FlowNodeTask)
    modifies to`inputRequestBody, to`inputResponseBody, to`flowCtx
    ensures to.inputRequestBody == from.outputRequestBody && to.inputResponseBody == from.outputResponseBody
    ensures to.flowCtx == old(from.flowCtx)
  {
    to.SetInputRequestBody(from.outputRequestBody);
    to.SetInputResponseBody(from.outputResponseBody);
    to.SetFlowCtx(from.flowCtx);
  }

  /** How one round of a walk ends: at the end of the walk, with a step to
      the activated child under `act`, or with a failure. */
  datatype Hop = Stop | Move(act: string, next: FlowNodeTask) | Abort(failure: Failure)

  /** One round of the utility's walk: call `cur`; stop at a leaf; fail when
      the call throws or its activated child is missing; otherwise hand the
      outputs and the flow context to that child.  `c` is the call made. */
  method UtilStep(cur: FlowNodeTask, ghost tasks: set<FlowNodeTask>,
                  ghost kids: map<FlowNodeTask, Option<OMap<FlowNodeTask>>>, ghost made: Classes)
    returns (h: Hop, ghost c: CallRecord)
    requires cur in tasks && Snapshot(tasks, kids, made) && ClosedKids(kids)
    modifies cur`outputRequestBody, cur`outputResponseBody, cur`activatedNodeId
    modifies tasks`inputRequestBody, tasks`inputResponseBody, tasks`flowCtx
    ensures cur in kids && cur in made && Made(made[cur].0, kids[cur], made[cur].1, c)
    ensures c.inReq == old(cur.inputRequestBody) && c.inResp == old(cur.inputResponseBody)
    ensures c.after == cur.Outputs()
    ensures h.Stop? ==> c.outcome == Pass && IsLeaf(kids[cur]) && cur.flowCtx == old(cur.flowCtx)
    ensures h.Move? ==>
      && c.outcome == Pass && c.after.activated == Some(h.act)
      && kids[cur].Some? && kids[cur].value.Get(h.act) == Some(h.next) && h.next in tasks
      && h.next.inputRequestBody == c.after.request && h.next.inputResponseBody == c.after.response
      && h.next.flowCtx == old(cur.flowCtx)
    ensures h.Abort? ==>
      || (c.outcome.Throw? && h.failure == c.outcome.failure)
      || (&& c.outcome == Pass && !IsLeaf(kids[cur])
          && (c.after.activated.None? || c.after.activated.value !in kids[cur].value.vals)
          && h.failure == Failure(Generic, NoActivatedChild, [cur.nodeName.GetOr("undefined")]))
  {
    ghost var before := cur.Outputs();
    var o := cur.Call();
    c := CallRecord(cur.inputRequestBody, cur.inputResponseBody, before, o, cur.Outputs());
    if o.Throw? {
      return Abort(o.failure), c;
    }
    var activated := cur.activatedNodeId;
    var children := cur.childNodes;
    if IsLeaf(children) {
      return Stop, c;
    }
    if activated.None? || activated.value !in children.value.vals {
      return Abort(Failure(Generic, NoActivatedChild, [cur.nodeName.GetOr("undefined")])), c;
    }
    var next := children.value.vals[activated.value];
    HandOff(cur, next);
    h := Move(activated.value, next);
  }

  /** The loop of processFlow, over the snapshots `kids` and `made` of the
      tasks' child maps, classes and ids, and `in0`, the start task's input
      bodies. */
  method ProcessFlowOver(start: FlowNodeTask, ghost tasks: set<FlowNodeTask>,
                         ghost kids: map<FlowNodeTask, Option<OMap<FlowNodeTask>>>, ghost made: Classes,
                         ghost in0: (Option<string>, Option<string>))
    returns (r: Result<FlowNodeTask>, ghost trace: seq<FlowNodeTask>, ghost acts: seq<string>,
             ghost calls: seq<CallRecord>)
    requires start in tasks && Snapshot(tasks, kids, made) && ClosedKids(kids)
    requires in0 == (start.inputRequestBody, start.inputResponseBody)
    modifies tasks`outputRequestBody, tasks`outputResponseBody, tasks`activatedNodeId
    modifies tasks`inputRequestBody, tasks`inputResponseBody, tasks`flowCtx
    ensures 1 <= |trace| <= MaxDepth + 1 && |acts| == |trace| - 1 && trace[|trace| - 1] in tasks
    ensures |calls| == if |trace| == MaxDepth + 1 then MaxDepth else |trace|
    ensures Walked(kids, start, trace, acts) && Calls(kids, made, trace, acts, calls, in0, true)
    ensures r.Ok? ==>
      && |trace| <= MaxDepth && r.value == trace[|trace| - 1] && IsLeaf(kids[r.value])
      && r.value.flowCtx == old(start.flowCtx)
      && calls[|calls| - 1].outcome == Pass && r.value.Outputs() == calls[|calls| - 1].after
    ensures |trace| == MaxDepth + 1 ==> r == Fail(Failure(Generic, PathTooLong, []))
    ensures r.Fail? && |trace| <= MaxDepth ==>
      var last, c := trace[|trace| - 1], calls[|calls| - 1];
      || (c.outcome.Throw? && r.failure == c.outcome.failure)
      || (&& c.outcome == Pass && !IsLeaf(kids[last])
          && (c.after.activated.None? || c.after.activated.value !in kids[last].value.vals)
          && r.failure == Failure(Generic, NoActivatedChild, [last.nodeName.GetOr("undefined")]))
  {
    var loopCnt := 0;
    var cur := start;
    trace := [];
    acts := [];
    calls := [];
    ghost var ctx0 := start.flowCtx;
    while true
      invariant 0 <= loopCnt <= MaxDepth && |trace| == loopCnt && |acts| == loopCnt && |calls| == loopCnt
      invariant cur in tasks && cur.flowCtx == ctx0
      invariant (cur.inputRequestBody, cur.inputResponseBody) == NextInputs(calls, in0)
      invariant Path(kids, start, trace, acts, cur)
      invariant Calls(kids, made, trace, acts, calls, in0, true) && Snapshot(tasks, kids, made)
      decreases MaxDepth - loopCnt
    {
      loopCnt := loopCnt + 1;
      if loopCnt > MaxDepth {
        CallsLonger(kids, made, trace, acts, calls, in0, true, cur);
        return Fail(Failure(Generic, PathTooLong, [])), trace + [cur], acts, calls;
      }
      var h, c := UtilStep(cur, tasks, kids, made);
      CallsExtend(kids, made, trace, acts, calls, in0, true, cur, c);
      if !h.Move? {
        r := if h.Stop? then Ok(cur) else Fail(h.failure);
        return r, trace + [cur], acts, calls + [c];
      }
      PathExtend(kids, start, trace, acts, cur, h.act, h.next);
      trace := trace + [cur];
      acts := acts + [h.act];
      calls := calls + [c];
      cur := h.next;
    }
  }

  /** processFlow of the flow utility: call the current task, stop at a leaf,
      otherwise move to the activated child, handing it the output bodies
      and the flow context.  It makes at most MAX_DEPTH calls; the walk that
      would make one more throws.  `trace` is the tasks reached, in order
      (all were called except, on the overlong walk, the last), `acts` the
      child key each step followed and `calls` the calls made, in order. */
  method ProcessFlow(start: FlowNodeTask, ghost tasks: set<FlowNodeTask>)
    returns (r: Result<FlowNodeTask>, ghost trace: seq<FlowNodeTask>, ghost acts: seq<string>,
             ghost calls: seq<CallRecord>)
    requires start in tasks && Closed(tasks)
    modifies tasks`outputRequestBody, tasks`outputResponseBody, tasks`activatedNodeId
    modifies tasks`inputRequestBody, tasks`inputResponseBody, tasks`flowCtx
    ensures forall t :: t in tasks ==> t.childNodes == old(t.childNodes)
    ensures 1 <= |trace| <= MaxDepth + 1 && trace[0] == start && |acts| == |trace| - 1
    ensures forall t :: t in trace ==> t in tasks
    ensures forall i :: 0 <= i < |trace| - 1 ==>
      trace[i].childNodes.Some? && trace[i].childNodes.value.Get(acts[i]) == Some(trace[i + 1])
    ensures |calls| == if |trace| == MaxDepth + 1 then MaxDepth else |trace|
    ensures forall i :: 0 <= i < |calls| ==> Made(trace[i].behaviour, trace[i].childNodes, trace[i].nodeId, calls[i])
    ensures calls[0].inReq == old(start.inputRequestBody) && calls[0].inResp == old(start.inputResponseBody)
    ensures forall i :: 0 <= i < |calls| - 1 ==>
      calls[i + 1].inReq == calls[i].after.request && calls[i + 1].inResp == calls[i].after.response
    ensures forall i :: 0 <= i < |acts| ==> calls[i].outcome == Pass && calls[i].after.activated == Some(acts[i])
    ensures r.Ok? ==> |trace| <= MaxDepth && r.value == trace[|trace| - 1] && IsLeaf(r.value.childNodes)
    ensures r.Ok? ==> r.value.flowCtx == old(start.flowCtx)
    ensures r.Ok? ==>
      && calls[|calls| - 1].outcome == Pass
      && r.value.outputRequestBody == calls[|calls| - 1].after.request
      && r.value.outputResponseBody == calls[|calls| - 1].after.response
    ensures |trace| == MaxDepth + 1 ==> r == Fail(Failure(Generic, PathTooLong, []))
    ensures r.Fail? && |trace| <= MaxDepth ==>
      var last, c := trace[|trace| - 1], calls[|calls| - 1];
      || (c.outcome.Throw? && r.failure == c.outcome.failure)
      || (&& c.outcome == Pass && !IsLeaf(last.childNodes)
          && (c.after.activated.None? || c.after.activated.value !in last.childNodes.value.vals)
          && r.failure == Failure(Generic, NoActivatedChild, [last.nodeName.GetOr("undefined")]))
  {
    ghost var kids := map t | t in tasks :: t.childNodes;
    ghost var made: Classes := map t | t in tasks :: (t.behaviour, t.nodeId);
    assert Snapshot(tasks, kids, made) && ClosedKids(kids);
    r, trace, acts, calls := ProcessFlowOver(start, tasks, kids, made, (start.inputRequestBody, start.inputResponseBody));
    WalkedClose(kids, made, tasks, start, trace, acts);
    CallsClose(kids, made, tasks, trace, acts, calls, (old(start.inputRequestBody), old(start.inputResponseBody)), true);
  }
}
