// The editor's link rules (apps/vs-adapter/src/link/link.service.ts and the
// create action of link.controller.ts): which port kinds a link may join on
// each layer of the graph, and the checks an added link passes before its
// row is written.

module LinkService {
  import opened Wrappers
  import opened Enums
  import opened AdapterStore

  // ---------------------------------------------------------------------------
  // validPort

  /** Where a link runs: between two nodes of one layer (both on the top
      layer or both inside containers), from a top-layer node into a
      container, or out of a container to a top-layer node. */
  datatype Layer = SameLayer | IntoContainer | OutOfContainer

  /** The layer case of a link from a node with parent `startParent` to a
      node with parent `targetParent`. */
  function LayerOf(startParent: string, targetParent: string): (r: Layer)
    ensures r == SameLayer <==> ((startParent == TopLevel) == (targetParent == TopLevel))
    ensures r == IntoContainer <==> (startParent == TopLevel && targetParent != TopLevel)
    ensures r == OutOfContainer <==> (startParent != TopLevel && targetParent == TopLevel)
  {
    if (startParent == TopLevel) == (targetParent == TopLevel) then SameLayer
    else if startParent == TopLevel then IntoContainer
    else OutOfContainer
  }

  /** The port kinds each layer case demands, source first: OUTPUT to INPUT
      on one layer, INPUT to INPUT into a container (the container's input
      feeds its inner start), OUTPUT to OUTPUT out of it. */
  function RequiredPorts(l: Layer): (PortType, PortType)
  {
    match l
    case SameLayer => (OutputPort, InputPort)
    case IntoContainer => (InputPort, InputPort)
    case OutOfContainer => (OutputPort, OutputPort)
  }

  const WrongSameLayerPorts := "a link on one layer must run from an output port to an input port"
  const WrongIntoContainerPorts := "a link into a container must join two input ports"
  const WrongOutOfContainerPorts := "a link out of a container must join two output ports"

  /** LinkService.validPort: the three layer tests in the source's order. */
  function ValidPort(start: NodeRow, target: NodeRow, sourcePort: PortRow, targetPort: PortRow): Outcome
  {
    var s := start.upLevelNodeId;
    var t := target.upLevelNodeId;
    if (s == TopLevel && t == TopLevel) || (s != TopLevel && t != TopLevel) then
      if !(sourcePort.portType == OutputPort && targetPort.portType == InputPort) then
        Throw(Failure(BadRequest, WrongSameLayerPorts, []))
      else Pass
    else if s == TopLevel && t != TopLevel then
      if !(sourcePort.portType == InputPort && targetPort.portType == InputPort) then
        Throw(Failure(BadRequest, WrongIntoContainerPorts, []))
      else Pass
    else if s != TopLevel && t == TopLevel then
      if !(sourcePort.portType == OutputPort && targetPort.portType == OutputPort) then
        Throw(Failure(BadRequest, WrongOutOfContainerPorts, []))
      else Pass
    else Pass
  }

  /** The three tests of validPort cover every pair of parents and exclude
      each other, so its silent fourth branch is never taken; a link passes
      exactly when its ports are the kinds its layer case demands, and is
      otherwise refused as a bad request. */
  lemma ValidPortSpec(start: NodeRow, target: NodeRow, sourcePort: PortRow, targetPort: PortRow)
    ensures ValidPort(start, target, sourcePort, targetPort).Pass?
      <==> (sourcePort.portType, targetPort.portType)
           == RequiredPorts(LayerOf(start.upLevelNodeId, target.upLevelNodeId))
    ensures ValidPort(start, target, sourcePort, targetPort).Throw?
      ==> ValidPort(start, target, sourcePort, targetPort).failure.kind == BadRequest
  {
    var s := start.upLevelNodeId;
    var t := target.upLevelNodeId;
    var sp := sourcePort.portType;
    var tp := targetPort.portType;
    match LayerOf(s, t)
    case SameLayer =>
      assert (sp, tp) == (OutputPort, InputPort) <==> sp == OutputPort && tp == InputPort;
    case IntoContainer =>
      assert (sp, tp) == (InputPort, InputPort) <==> sp == InputPort && tp == InputPort;
    case OutOfContainer =>
      assert (sp, tp) == (OutputPort, OutputPort) <==> sp == OutputPort && tp == OutputPort;
  }

  // ---------------------------------------------------------------------------
  // The request

  /** VsLinkAddReq: the new link's id, project and endpoints. */
  datatype LinkAddReq = LinkAddReq(
    id: string,
    projectId: int,
    sourceId: string,
    sourcePort: string,
    targetId: string,
    targetPort: string)

  const SameNode := "a link cannot start and end on one node"
  const SamePort := "a link cannot start and end on one port"
  const DuplicateLink := "the link already exists"
  const MissingNode := "both nodes of the link must exist"
  const TooManyNodes := "more than two nodes carry the link's node ids"
  const MissingPort := "both ports of the link must exist"

  /** LinkController.create's own checks, before the service is called:
      one node at both ends first, then one port at both ends. */
  function CreateGuard(req: LinkAddReq): Outcome
  {
    if req.sourceId == req.targetId then Throw(Failure(BadRequest, SameNode, [req.sourceId]))
    else if req.sourcePort == req.targetPort then Throw(Failure(BadRequest, SamePort, [req.sourcePort]))
    else Pass
  }

  /** The controller refuses exactly the links with one node or one port at
      both ends, naming the node when both hold. */
  lemma CreateGuardSpec(req: LinkAddReq)
    ensures CreateGuard(req).Pass? <==> req.sourceId != req.targetId && req.sourcePort != req.targetPort
    ensures req.sourceId == req.targetId ==> CreateGuard(req) == Throw(Failure(BadRequest, SameNode, [req.sourceId]))
    ensures (req.sourceId != req.targetId && req.sourcePort == req.targetPort)
      ==> CreateGuard(req) == Throw(Failure(BadRequest, SamePort, [req.sourcePort]))
  {
  }

  // ---------------------------------------------------------------------------
  // The endpoint loop of add

  /** The start and end node the loop of `add` settles on, and the source id
      it leaves in the request. */
  datatype Pick = Pick(start: Option<NodeRow>, end: Option<NodeRow>, sourceId: string)

  /** The loop as intended: the last node with the source id is the start
      and the last with the target id the end; the request is untouched. */
  function PickOf(nodes: seq<NodeRow>, sourceId: string, targetId: string): Pick
    decreases |nodes|
  {
    if |nodes| == 0 then Pick(None, None, sourceId)
    else
      var p := PickOf(nodes[..|nodes| - 1], sourceId, targetId);
      var n := nodes[|nodes| - 1];
      Pick(if n.id == sourceId then Some(n) else p.start,
           if n.id == targetId then Some(n) else p.end,
           sourceId)
  }

  /** The start the loop finds carries the source id and the end the target
      id; either is missing exactly when no node has that id; the source id
      is kept. */
  lemma {:induction false} PickSpec(nodes: seq<NodeRow>, sourceId: string, targetId: string)
    ensures PickOf(nodes, sourceId, targetId).sourceId == sourceId
    ensures PickOf(nodes, sourceId, targetId).start.Some? ==>
      PickOf(nodes, sourceId, targetId).start.value in nodes
      && PickOf(nodes, sourceId, targetId).start.value.id == sourceId
    ensures PickOf(nodes, sourceId, targetId).end.Some? ==>
      PickOf(nodes, sourceId, targetId).end.value in nodes
      && PickOf(nodes, sourceId, targetId).end.value.id == targetId
    ensures PickOf(nodes, sourceId, targetId).start.None? <==> forall i :: 0 <= i < |nodes| ==> nodes[i].id != sourceId
    ensures PickOf(nodes, sourceId, targetId).end.None? <==> forall i :: 0 <= i < |nodes| ==> nodes[i].id != targetId
    decreases |nodes|
  {
    if |nodes| > 0 {
      var init := nodes[..|nodes| - 1];
      PickSpec(init, sourceId, targetId);
      assert nodes == init + [nodes[|nodes| - 1]];
      assert forall i :: 0 <= i < |init| ==> init[i] == nodes[i];
    }
  }

  /** The loop as written (link.service.ts line 58): `req.sourceId =
      node.id` assigns instead of comparing, so every node with a non-empty
      id becomes the start and overwrites the request's source id. */
  function PickAsWritten(nodes: seq<NodeRow>, sourceId: string, targetId: string): Pick
    decreases |nodes|
  {
    if |nodes| == 0 then Pick(None, None, sourceId)
    else
      var p := PickAsWritten(nodes[..|nodes| - 1], sourceId, targetId);
      var n := nodes[|nodes| - 1];
      Pick(if n.id != "" then Some(n) else p.start,
           if targetId == n.id then Some(n) else p.end,
           n.id)
  }

  /** As written, the start is the last node and the source id becomes its
      id, whatever the request said, when every id is non-empty (they are:
      a node id is 1 to 64 characters long). */
  lemma PickAsWrittenTakesLast(nodes: seq<NodeRow>, sourceId: string, targetId: string)
    requires |nodes| > 0 && nodes[|nodes| - 1].id != ""
    ensures PickAsWritten(nodes, sourceId, targetId).start == Some(nodes[|nodes| - 1])
    ensures PickAsWritten(nodes, sourceId, targetId).sourceId == nodes[|nodes| - 1].id
  {
  }

  /** With the source node stored before the target node, the loop as
      written makes the target node the start too: the link written runs
      from the target to itself. */
  lemma PickAsWrittenSelfLoop(s: NodeRow, t: NodeRow)
    requires s.id != t.id && t.id != ""
    ensures PickAsWritten([s, t], s.id, t.id) == Pick(Some(t), Some(t), t.id)
    ensures PickOf([s, t], s.id, t.id) == Pick(Some(s), Some(t), s.id)
  {
    assert [s, t][..1] == [s];
    assert [s][..0] == [];
  }

  /** The `for (const node of nodes)` loop of add, with the comparison
      intended at line 58. */
  method PickEndpoints(nodes: seq<NodeRow>, sourceId: string, targetId: string) returns (p: Pick)
    ensures p == PickOf(nodes, sourceId, targetId)
  {
    var startNode: Option<NodeRow> := None;
    var endNode: Option<NodeRow> := None;
    for i := 0 to |nodes|
      invariant Pick(startNode, endNode, sourceId) == PickOf(nodes[..i], sourceId, targetId)
    {
      assert nodes[..i + 1][..i] == nodes[..i];
      var node := nodes[i];
      if sourceId == node.id {
        startNode := Some(node);
      }
      if targetId == node.id {
        endNode := Some(node);
      }
    }
    assert nodes[..|nodes|] == nodes;
    p := Pick(startNode, endNode, sourceId);
  }

  // ---------------------------------------------------------------------------
  // add

  predicate SameTuple(l: LinkRow, req: LinkAddReq)
  {
    l.sourceId == req.sourceId && l.sourcePort == req.sourcePort
    && l.targetId == req.targetId && l.targetPort == req.targetPort
  }

  /** `findMany` of the links with the request's four endpoint columns. */
  function Duplicates(db: Db, req: LinkAddReq): seq<LinkRow>
  {
    Filter(db.links, (l: LinkRow) => SameTuple(l, req))
  }

  /** `findMany` of the nodes whose id is the source or the target id. */
  function EndNodes(db: Db, req: LinkAddReq): seq<NodeRow>
  {
    Filter(db.nodes, (n: NodeRow) => n.id == req.sourceId || n.id == req.targetId)
  }

  /** `findMany` of the ports whose id is the source or the target port. */
  function EndPorts(db: Db, req: LinkAddReq): seq<PortRow>
  {
    Filter(db.ports, (p: PortRow) => p.id == req.sourcePort || p.id == req.targetPort)
  }

  /** The `update` at the end of add: the row with the request's id gets the
      four endpoint columns. */
  function WriteLink(db: Db, req: LinkAddReq, sourceId: string): Db
  {
    db.(links := Update(db.links, (l: LinkRow) => l.id == req.id,
                        (l: LinkRow) => l.(sourceId := sourceId, sourcePort := req.sourcePort,
                                           targetId := req.targetId, targetPort := req.targetPort)))
  }

  /** LinkService.add, step by step: the duplicate check, the two node and
      the two port lookups, the endpoint loop, the port-kind rule, and the
      write.  A missing port row in the last lookups is read as null
      (TypeErr); a missing link row fails the update. */
  function AddStep(db: Db, req: LinkAddReq): Step
  {
    if |Duplicates(db, req)| > 0 then Step(Throw(Failure(BadRequest, DuplicateLink, [])), db)
    else if |EndNodes(db, req)| < 2 then Step(Throw(Failure(BadRequest, MissingNode, [])), db)
    else if |EndNodes(db, req)| > 2 then Step(Throw(Failure(BadRequest, TooManyNodes, [])), db)
    else if |EndPorts(db, req)| != 2 then Step(Throw(Failure(BadRequest, MissingPort, [])), db)
    else
      var pick := PickOf(EndNodes(db, req), req.sourceId, req.targetId);
      if pick.start.None? || pick.end.None? then Step(Throw(Failure(BadRequest, MissingNode, [])), db)
      else
        var sp := PortById(db, req.sourcePort);
        var tp := PortById(db, req.targetPort);
        if sp.None? || tp.None? then Step(Throw(Failure(TypeErr, "port is null", [])), db)
        else
          match ValidPort(pick.start.value, pick.end.value, sp.value, tp.value)
          case Throw(e) => Step(Throw(e), db)
          case Pass =>
            if !HasLink(db, req.id) then Step(Throw(Failure(Generic, RecordMissing, [req.id])), db)
            else Step(Pass, WriteLink(db, req, pick.sourceId))
  }

  /** An added link passes only when no link has its endpoints, both its
      nodes and both its ports exist, and its ports suit its layer case;
      it then writes exactly the request's endpoints into the row with the
      request's id and changes nothing else.  A refused link changes
      nothing. */
  lemma AddStepSpec(db: Db, req: LinkAddReq)
    ensures AddStep(db, req).outcome.Throw? ==> AddStep(db, req).db == db
    ensures AddStep(db, req).outcome.Pass? ==>
      && (forall i :: 0 <= i < |db.links| ==> !SameTuple(db.links[i], req))
      && PortById(db, req.sourcePort).Some? && PortById(db, req.targetPort).Some?
      && (exists s, t :: s in db.nodes && t in db.nodes && s.id == req.sourceId && t.id == req.targetId
            && ValidPort(s, t, PortById(db, req.sourcePort).value, PortById(db, req.targetPort).value).Pass?)
    ensures AddStep(db, req).outcome.Pass? ==>
      && HasLink(db, req.id)
      && AddStep(db, req).db == db.(links := AddStep(db, req).db.links)
      && |AddStep(db, req).db.links| == |db.links|
      && (forall i :: 0 <= i < |db.links| ==>
            AddStep(db, req).db.links[i]
            == (if db.links[i].id == req.id
                then db.links[i].(sourceId := req.sourceId, sourcePort := req.sourcePort,
                                  targetId := req.targetId, targetPort := req.targetPort)
                else db.links[i]))
  {
    var nodes := EndNodes(db, req);
    FilterMembers(db.nodes, (n: NodeRow) => n.id == req.sourceId || n.id == req.targetId);
    FilterMembers(db.links, (l: LinkRow) => SameTuple(l, req));
    if AddStep(db, req).outcome.Pass? {
      var pick := PickOf(nodes, req.sourceId, req.targetId);
      PickSpec(nodes, req.sourceId, req.targetId);
      forall i | 0 <= i < |db.links| ensures !SameTuple(db.links[i], req) {
        assert db.links[i] !in Duplicates(db, req);
      }
      var s := pick.start.value;
      var t := pick.end.value;
      assert s in db.nodes && t in db.nodes;
    }
  }

  /** LinkService.add. */
  method Add(store: Store, req: LinkAddReq) returns (o: Outcome)
    modifies store
    ensures Step(o, store.State()) == AddStep(old(store.State()), req)
  {
    var db := store.State();
    if |Duplicates(db, req)| > 0 {
      return Throw(Failure(BadRequest, DuplicateLink, []));
    }
    var nodes := EndNodes(db, req);
    if |nodes| < 2 {
      return Throw(Failure(BadRequest, MissingNode, []));
    }
    if |nodes| > 2 {
      return Throw(Failure(BadRequest, TooManyNodes, []));
    }
    if |EndPorts(db, req)| != 2 {
      return Throw(Failure(BadRequest, MissingPort, []));
    }
    var pick := PickEndpoints(nodes, req.sourceId, req.targetId);
    if pick.start.None? || pick.end.None? {
      return Throw(Failure(BadRequest, MissingNode, []));
    }
    var sp := PortById(db, req.sourcePort);
    var tp := PortById(db, req.targetPort);
    if sp.None? || tp.None? {
      return Throw(Failure(TypeErr, "port is null", []));
    }
    o := ValidPort(pick.start.value, pick.end.value, sp.value, tp.value);
    if o.Throw? {
      return;
    }
    if !HasLink(db, req.id) {
      return Throw(Failure(Generic, RecordMissing, [req.id]));
    }
    store.links := WriteLink(db, req, pick.sourceId).links;
  }

  /** LinkController.create: its own two checks, then the service with the
      request unchanged. */
  method Create(store: Store, req: LinkAddReq) returns (o: Outcome)
    modifies store
    ensures CreateGuard(req).Throw? ==> o == CreateGuard(req) && store.State() == old(store.State())
    ensures CreateGuard(req).Pass? ==> Step(o, store.State()) == AddStep(old(store.State()), req)
  {
    o := CreateGuard(req);
    if o.Pass? {
      o := Add(store, req);
    }
  }
}
