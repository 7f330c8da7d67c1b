// The topology resolver of the flow compiler: the start node, the end nodes
// and the valid node ids of a link set, the edge flattening that removes
// composite nodes, and the node and port filters that pick what is compiled.

module Topology {
  import opened Wrappers
  import opened Enums
  import opened FlowModel
  import opened OrderedMaps

  const NoStartNode := "no single start node"
  const NoEndNode := "no end node"
  const GraphTooLarge := "graph too large"
  const PortNotFound := "port not found"
  const NodeNotFound := "node not found"
  const PortNotLinked := "composite port has no outgoing link"

  /** Bound of the port chase in getActualLinks: a step index above it throws. */
  const MaxChaseIndex := 90000

  // ---------------------------------------------------------------------------
  // makeStFlow and the id sets

  datatype Edge = Edge(sourceId: string, targetId: string)

  /** makeStFlow: one (sourceId, targetId) pair per link and one id per node.
      Each pair is a fresh object, so the JavaScript Set keeps every one of
      them, duplicates included, in link order. */
  datatype StFlow = StFlow(edges: seq<Edge>, nodeIds: seq<string>)

  function MakeStFlow(links: seq<Link>, nodes: seq<Node>): (f: StFlow)
    ensures |f.edges| == |links| && |f.nodeIds| == |nodes|
    ensures forall i :: 0 <= i < |links| ==> f.edges[i] == Edge(links[i].sourceId, links[i].targetId)
  {
    StFlow(seq(|links|, i requires 0 <= i < |links| => Edge(links[i].sourceId, links[i].targetId)),
           seq(|nodes|, i requires 0 <= i < |nodes| => nodes[i].id))
  }

  function Sources(edges: seq<Edge>): (r: seq<string>)
    ensures |r| == |edges| && forall i :: 0 <= i < |edges| ==> r[i] == edges[i].sourceId
  {
    if |edges| == 0 then [] else Sources(edges[..|edges| - 1]) + [edges[|edges| - 1].sourceId]
  }

  function Targets(edges: seq<Edge>): (r: seq<string>)
    ensures |r| == |edges| && forall i :: 0 <= i < |edges| ==> r[i] == edges[i].targetId
  {
    if |edges| == 0 then [] else Targets(edges[..|edges| - 1]) + [edges[|edges| - 1].targetId]
  }

  /** Adding `xs` one by one to the insertion-ordered set `acc` (Set.add). */
  function AddNew(acc: seq<string>, xs: seq<string>): (r: seq<string>)
    ensures |r| >= |acc| && r[..|acc|] == acc
    decreases |xs|
  {
    if |xs| == 0 then acc
    else
      var a := AddNew(acc, xs[..|xs| - 1]);
      if xs[|xs| - 1] in a then a else a + [xs[|xs| - 1]]
  }

  /** Set.add keeps what was there, in front, adds exactly the new elements, and
      never duplicates. */
  lemma {:induction false} AddNewSpec(acc: seq<string>, xs: seq<string>)
    ensures forall x :: x in AddNew(acc, xs) <==> x in acc || x in xs
    ensures Distinct(acc) ==> Distinct(AddNew(acc, xs))
    decreases |xs|
  {
    if |xs| > 0 {
      var init := xs[..|xs| - 1];
      AddNewSpec(acc, init);
      assert forall x :: x in xs <==> x in init || x == xs[|xs| - 1];
    }
  }

  /** Set.add of one more element. */
  lemma AddNewStep(acc: seq<string>, xs: seq<string>, j: nat)
    requires j < |xs|
    ensures AddNew(acc, xs[..j + 1])
      == if xs[j] in AddNew(acc, xs[..j]) then AddNew(acc, xs[..j]) else AddNew(acc, xs[..j]) + [xs[j]]
  {
    assert xs[..j + 1][..j] == xs[..j];
  }

  function StartSet(edges: seq<Edge>): seq<string> { AddNew([], Sources(edges)) }
  function EndSet(edges: seq<Edge>): seq<string> { AddNew([], Targets(edges)) }
  /** allNodeIdSet: the start set, then the end ids not already in it. */
  function AllIds(edges: seq<Edge>): seq<string> { AddNew(StartSet(edges), EndSet(edges)) }

  predicate IsEndpoint(edges: seq<Edge>, x: string)
  {
    exists i :: 0 <= i < |edges| && (edges[i].sourceId == x || edges[i].targetId == x)
  }

  /** The valid ids are the link endpoints, each once, sources first. */
  lemma AllIdsSpec(edges: seq<Edge>)
    ensures Distinct(AllIds(edges))
    ensures forall x :: x in AllIds(edges) <==> IsEndpoint(edges, x)
    ensures forall x :: x in StartSet(edges) <==> exists i :: 0 <= i < |edges| && edges[i].sourceId == x
    ensures forall x :: x in EndSet(edges) <==> exists i :: 0 <= i < |edges| && edges[i].targetId == x
  {
    StartSetMembers(edges);
    EndSetMembers(edges);
    AddNewSpec(StartSet(edges), EndSet(edges));
  }

  lemma StartSetMembers(edges: seq<Edge>)
    ensures Distinct(StartSet(edges))
    ensures forall x :: x in StartSet(edges) <==> exists i :: 0 <= i < |edges| && edges[i].sourceId == x
  {
    var s := Sources(edges);
    AddNewSpec([], s);
    forall x ensures x in s <==> exists i :: 0 <= i < |edges| && edges[i].sourceId == x {
      if x in s { var i :| 0 <= i < |s| && s[i] == x; }
    }
  }

  lemma EndSetMembers(edges: seq<Edge>)
    ensures Distinct(EndSet(edges))
    ensures forall x :: x in EndSet(edges) <==> exists i :: 0 <= i < |edges| && edges[i].targetId == x
  {
    var t := Targets(edges);
    AddNewSpec([], t);
    forall x ensures x in t <==> exists i :: 0 <= i < |edges| && edges[i].targetId == x {
      if x in t { var i :| 0 <= i < |t| && t[i] == x; }
    }
  }

  // ---------------------------------------------------------------------------
  // getStartNodeId / getEndNodeIds

  predicate IsStartCandidate(x: string, endSet: seq<string>, index: map<string, Node>)
  {
    x !in endSet && x in index && index[x].taskType == Context
  }

  predicate IsEndCandidate(x: string, startSet: seq<string>, index: map<string, Node>)
  {
    x !in startSet && x in index && index[x].taskType == End
  }

  /** The ids, in order, that are not link targets and name a CONTEXT node. */
  function StartCandidates(ids: seq<string>, endSet: seq<string>, index: map<string, Node>): (r: seq<string>)
    ensures forall x :: x in r <==> x in ids && IsStartCandidate(x, endSet, index)
    ensures |r| <= |ids|
  {
    if |ids| == 0 then []
    else
      var last := ids[|ids| - 1];
      StartCandidates(ids[..|ids| - 1], endSet, index) + (if IsStartCandidate(last, endSet, index) then [last] else [])
  }

  /** The ids, in order, that are not link sources and name an END node. */
  function EndCandidates(ids: seq<string>, startSet: seq<string>, index: map<string, Node>): (r: seq<string>)
    ensures forall x :: x in r <==> x in ids && IsEndCandidate(x, startSet, index)
    ensures |r| <= |ids|
  {
    if |ids| == 0 then []
    else
      var last := ids[|ids| - 1];
      EndCandidates(ids[..|ids| - 1], startSet, index) + (if IsEndCandidate(last, startSet, index) then [last] else [])
  }

  /** getStartNodeId: exactly one candidate, or a DataConsistencyException. */
  method GetStartNodeId(ids: seq<string>, endSet: seq<string>, index: map<string, Node>)
    returns (r: Result<seq<string>>)
    ensures r.Ok? <==> |StartCandidates(ids, endSet, index)| == 1
    ensures r.Ok? ==> r.value == StartCandidates(ids, endSet, index)
    ensures r.Fail? ==> r.failure == Failure(DataConsistency, NoStartNode, [])
  {
    var found: seq<string> := [];
    var i := 0;
    while i < |ids|
      invariant 0 <= i <= |ids|
      invariant found == StartCandidates(ids[..i], endSet, index)
    {
      assert ids[..i + 1][..i] == ids[..i];
      if ids[i] !in endSet && ids[i] in index && index[ids[i]].taskType == Context {
        found := found + [ids[i]];
      }
      i := i + 1;
    }
    assert ids[..|ids|] == ids;
    if |found| != 1 {
      return Fail(Failure(DataConsistency, NoStartNode, []));
    }
    return Ok(found);
  }

  /** getEndNodeIds: all candidates, of which there must be at least one. */
  method GetEndNodeIds(ids: seq<string>, startSet: seq<string>, index: map<string, Node>)
    returns (r: Result<seq<string>>)
    ensures r.Ok? <==> |EndCandidates(ids, startSet, index)| > 0
    ensures r.Ok? ==> r.value == EndCandidates(ids, startSet, index)
    ensures r.Fail? ==> r.failure == Failure(DataConsistency, NoEndNode, [])
  {
    var found: seq<string> := [];
    var i := 0;
    while i < |ids|
      invariant 0 <= i <= |ids|
      invariant found == EndCandidates(ids[..i], startSet, index)
    {
      assert ids[..i + 1][..i] == ids[..i];
      if ids[i] !in startSet && ids[i] in index && index[ids[i]].taskType == End {
        found := found + [ids[i]];
      }
      i := i + 1;
    }
    assert ids[..|ids|] == ids;
    if |found| == 0 {
      return Fail(Failure(DataConsistency, NoEndNode, []));
    }
    return Ok(found);
  }

  /** The START_NODE_ID, END_NODE_ID and ALL_VALID_NODE_ID entries. */
  datatype NodeIds = NodeIds(start: seq<string>, ends: seq<string>, all: seq<string>)

  /** What getNodeIdsMap computes: the valid ids, then the single start node
      (checked first) and the end nodes. */
  function NodeIdsOf(edges: seq<Edge>, index: map<string, Node>): Result<NodeIds>
  {
    var all := AllIds(edges);
    var starts := StartCandidates(all, EndSet(edges), index);
    var ends := EndCandidates(all, StartSet(edges), index);
    if |starts| != 1 then Fail(Failure(DataConsistency, NoStartNode, []))
    else if |ends| == 0 then Fail(Failure(DataConsistency, NoEndNode, []))
    else Ok(NodeIds(starts, ends, all))
  }

  /** getNodeIdsMap: the id sets of the links, filled in link order, then the
      start and end nodes. */
  method GetNodeIdsMap(flow: StFlow, index: map<string, Node>) returns (r: Result<NodeIds>)
    ensures r == NodeIdsOf(flow.edges, index)
  {
    var edges := flow.edges;
    var startSet: seq<string> := [];
    var endSet: seq<string> := [];
    var i := 0;
    while i < |edges|
      invariant 0 <= i <= |edges|
      invariant startSet == AddNew([], Sources(edges)[..i])
      invariant endSet == AddNew([], Targets(edges)[..i])
    {
      AddNewStep([], Sources(edges), i);
      AddNewStep([], Targets(edges), i);
      if edges[i].sourceId !in startSet { startSet := startSet + [edges[i].sourceId]; }
      if edges[i].targetId !in endSet { endSet := endSet + [edges[i].targetId]; }
      i := i + 1;
    }
    assert Sources(edges)[..|edges|] == Sources(edges);
    assert Targets(edges)[..|edges|] == Targets(edges);
    var all := startSet;
    var j := 0;
    while j < |endSet|
      invariant 0 <= j <= |endSet|
      invariant all == AddNew(startSet, endSet[..j])
    {
      AddNewStep(startSet, endSet, j);
      if endSet[j] !in all { all := all + [endSet[j]]; }
      j := j + 1;
    }
    assert endSet[..|endSet|] == endSet;
    var start := GetStartNodeId(all, endSet, index);
    if start.Fail? { return Fail(start.failure); }
    var ends := GetEndNodeIds(all, startSet, index);
    if ends.Fail? { return Fail(ends.failure); }
    return Ok(NodeIds(start.value, ends.value, all));
  }

  /** The valid ids getNodeIdsMap returns are exactly the link endpoints. */
  lemma NodeIdsAllEndpoints(edges: seq<Edge>, index: map<string, Node>)
    requires NodeIdsOf(edges, index).Ok?
    ensures forall x :: x in NodeIdsOf(edges, index).value.all <==> IsEndpoint(edges, x)
  {
    AllIdsSpec(edges);
  }

  /** A start node is a link endpoint that is never a link target and is a
      CONTEXT node. */
  lemma StartNodeCharacterised(edges: seq<Edge>, index: map<string, Node>, x: string)
    ensures x in StartCandidates(AllIds(edges), EndSet(edges), index) <==>
      IsEndpoint(edges, x)
      && (forall i :: 0 <= i < |edges| ==> edges[i].targetId != x)
      && x in index && index[x].taskType == Context
  {
    AllIdsSpec(edges);
  }

  /** End nodes are link endpoints that are never link sources and are END nodes. */
  lemma EndNodesCharacterised(edges: seq<Edge>, index: map<string, Node>, x: string)
    ensures x in EndCandidates(AllIds(edges), StartSet(edges), index) <==>
      IsEndpoint(edges, x)
      && (forall i :: 0 <= i < |edges| ==> edges[i].sourceId != x)
      && x in index && index[x].taskType == End
  {
    AllIdsSpec(edges);
  }

  // ---------------------------------------------------------------------------
  // getActualLinks

  /** Where a port chase ends: the first atomic node and the port reached on it. */
  datatype ChaseEnd = ChaseEnd(nodeId: string, port: string)

  /** The chase of getActualLinks from `port` at step `i`: an atomic node ends it,
      a composite node is crossed through the link leaving the port. */
  function Chase(port: string, i: nat, nodes: map<string, Node>, ports: map<string, Port>,
                 sourcePort2Link: map<string, Link>, startName: string): Result<ChaseEnd>
    requires i <= MaxChaseIndex + 1
    decreases MaxChaseIndex + 1 - i
  {
    if i > MaxChaseIndex then Fail(Failure(Generic, GraphTooLarge, []))
    else if port !in ports then Fail(Failure(Generic, PortNotFound, [port]))
    else if ports[port].nodeId !in nodes then Fail(Failure(Generic, NodeNotFound, [ports[port].nodeId]))
    else if nodes[ports[port].nodeId].viewType == Atomic then Ok(ChaseEnd(nodes[ports[port].nodeId].id, port))
    else if port !in sourcePort2Link then Fail(Failure(DataConsistency, PortNotLinked, [startName]))
    else Chase(sourcePort2Link[port].targetPort, i + 1, nodes, ports, sourcePort2Link, startName)
  }

  /** One link of getActualLinks: skipped when it leaves a composite node,
      otherwise re-targeted to where the chase ends. */
  function Flatten(link: Link, nodes: map<string, Node>, ports: map<string, Port>,
                   sourcePort2Link: map<string, Link>, names: map<string, string>): Result<Option<Link>>
  {
    if link.sourceId !in nodes then Fail(Failure(TypeErr, NodeNotFound, [link.sourceId]))
    else if nodes[link.sourceId].viewType == Composite then Ok(None)
    else match Chase(link.targetPort, 0, nodes, ports, sourcePort2Link, NameOf(names, link.sourceId))
      case Fail(f) => Fail(f)
      case Ok(e) => Ok(Some(Link(link.id, link.sourceId, link.sourcePort, e.nodeId, e.port)))
  }

  /** getActualLinks over the links in order; the first failure is thrown. */
  function ActualLinks(links: seq<Link>, nodes: map<string, Node>, ports: map<string, Port>,
                       sourcePort2Link: map<string, Link>, names: map<string, string>): Result<seq<Link>>
    decreases |links|
  {
    if |links| == 0 then Ok([])
    else match ActualLinks(links[..|links| - 1], nodes, ports, sourcePort2Link, names)
      case Fail(f) => Fail(f)
      case Ok(prev) =>
        match Flatten(links[|links| - 1], nodes, ports, sourcePort2Link, names)
        case Fail(f) => Fail(f)
        case Ok(None) => Ok(prev)
        case Ok(Some(l)) => Ok(prev + [l])
  }

  /** The first failure is final: no later link changes it. */
  lemma {:induction false} ActualLinksFailSticks(links: seq<Link>, k: nat, nodes: map<string, Node>, ports: map<string, Port>,
                                                 sp2l: map<string, Link>, names: map<string, string>)
    requires k <= |links|
    requires ActualLinks(links[..k], nodes, ports, sp2l, names).Fail?
    ensures ActualLinks(links, nodes, ports, sp2l, names) == ActualLinks(links[..k], nodes, ports, sp2l, names)
    decreases |links| - k
  {
    if k == |links| {
      assert links[..k] == links;
    } else {
      assert links[..k + 1][..k] == links[..k];
      ActualLinksFailSticks(links, k + 1, nodes, ports, sp2l, names);
    }
  }

  /** The inner loop of getActualLinks: from `port`, cross composite nodes by
      the link leaving the current port until an atomic node is reached, for at
      most MaxChaseIndex + 1 steps of the 100000-step loop. */
  method ChasePort(port: string, nodes: map<string, Node>, ports: map<string, Port>,
                   sourcePort2Link: map<string, Link>, startName: string)
    returns (r: Result<ChaseEnd>)
    ensures r == Chase(port, 0, nodes, ports, sourcePort2Link, startName)
  {
    var endNodeId := "";
    var targetPort := port;
    var found := false;
    var i := 0;
    while i < 100000 && !found
      invariant 0 <= i <= MaxChaseIndex + 1
      invariant !found ==> Chase(targetPort, i, nodes, ports, sourcePort2Link, startName)
                           == Chase(port, 0, nodes, ports, sourcePort2Link, startName)
      invariant found ==> Chase(port, 0, nodes, ports, sourcePort2Link, startName)
                          == Ok(ChaseEnd(endNodeId, targetPort))
      decreases MaxChaseIndex + 1 - i, if found then 0 else 1
    {
      if i > MaxChaseIndex {
        return Fail(Failure(Generic, GraphTooLarge, []));
      }
      if targetPort !in ports {
        return Fail(Failure(Generic, PortNotFound, [targetPort]));
      }
      var tempPort := ports[targetPort];
      if tempPort.nodeId !in nodes {
        return Fail(Failure(Generic, NodeNotFound, [tempPort.nodeId]));
      }
      var tempNode := nodes[tempPort.nodeId];
      if tempNode.viewType == Atomic {
        endNodeId := tempNode.id;
        found := true;
      } else {
        if targetPort !in sourcePort2Link {
          return Fail(Failure(DataConsistency, PortNotLinked, [startName]));
        }
        targetPort := sourcePort2Link[targetPort].targetPort;
        i := i + 1;
      }
    }
    return Ok(ChaseEnd(endNodeId, targetPort));
  }

  /** The body of the getActualLinks loop for one link. */
  method FlattenLink(link: Link, nodes: map<string, Node>, ports: map<string, Port>,
                     sourcePort2Link: map<string, Link>, names: map<string, string>)
    returns (r: Result<Option<Link>>)
    ensures r == Flatten(link, nodes, ports, sourcePort2Link, names)
  {
    if link.sourceId !in nodes {
      return Fail(Failure(TypeErr, NodeNotFound, [link.sourceId]));
    }
    if nodes[link.sourceId].viewType == Composite {
      return Ok(None);
    }
    var e := ChasePort(link.targetPort, nodes, ports, sourcePort2Link, NameOf(names, link.sourceId));
    if e.Fail? {
      return Fail(e.failure);
    }
    return Ok(Some(Link(link.id, link.sourceId, link.sourcePort, e.value.nodeId, e.value.port)));
  }

  /** getActualLinks: a loop over the links, each chased to its atomic end;
      `None` is a null link list. */
  method GetActualLinks(links: Option<seq<Link>>, nodes: map<string, Node>, ports: map<string, Port>,
                        sourcePort2Link: map<string, Link>, names: map<string, string>)
    returns (r: Result<seq<Link>>)
    ensures links.None? ==> r == Ok([])
    ensures links.Some? ==> r == ActualLinks(links.value, nodes, ports, sourcePort2Link, names)
  {
    if links.None? { return Ok([]); }
    var ls := links.value;
    var actual: seq<Link> := [];
    var k := 0;
    while k < |ls|
      invariant 0 <= k <= |ls|
      invariant ActualLinks(ls[..k], nodes, ports, sourcePort2Link, names) == Ok(actual)
    {
      assert ls[..k + 1][..k] == ls[..k];
      var f := FlattenLink(ls[k], nodes, ports, sourcePort2Link, names);
      if f.Fail? {
        ActualLinksFailSticks(ls, k + 1, nodes, ports, sourcePort2Link, names);
        return Fail(f.failure);
      }
      if f.value.Some? {
        actual := actual + [f.value.value];
      }
      k := k + 1;
    }
    assert ls[..|ls|] == ls;
    return Ok(actual);
  }

  /** A chase that succeeds ends on an existing port of an existing atomic node. */
  lemma {:induction false} ChaseSound(port: string, i: nat, nodes: map<string, Node>, ports: map<string, Port>,
                                       sp2l: map<string, Link>, startName: string)
    requires i <= MaxChaseIndex + 1
    requires Chase(port, i, nodes, ports, sp2l, startName).Ok?
    ensures var e := Chase(port, i, nodes, ports, sp2l, startName).value;
      e.port in ports && ports[e.port].nodeId in nodes
      && nodes[ports[e.port].nodeId].viewType == Atomic && e.nodeId == nodes[ports[e.port].nodeId].id
    decreases MaxChaseIndex + 1 - i
  {
    if port in ports && ports[port].nodeId in nodes && nodes[ports[port].nodeId].viewType != Atomic {
      ChaseSound(sp2l[port].targetPort, i + 1, nodes, ports, sp2l, startName);
    }
  }

  /** The chase fails in exactly three ways: an unknown port or node (Error), a
      composite port with no outgoing link (DataConsistencyException), or too
      many steps (Error). */
  lemma {:induction false} ChaseFailures(port: string, i: nat, nodes: map<string, Node>, ports: map<string, Port>,
                                          sp2l: map<string, Link>, startName: string)
    requires i <= MaxChaseIndex + 1
    requires Chase(port, i, nodes, ports, sp2l, startName).Fail?
    ensures var f := Chase(port, i, nodes, ports, sp2l, startName).failure;
      (f.kind == Generic && f.reason in {GraphTooLarge, PortNotFound, NodeNotFound})
      || f == Failure(DataConsistency, PortNotLinked, [startName])
    decreases MaxChaseIndex + 1 - i
  {
    if i <= MaxChaseIndex && port in ports && ports[port].nodeId in nodes
       && nodes[ports[port].nodeId].viewType != Atomic && port in sp2l {
      ChaseFailures(sp2l[port].targetPort, i + 1, nodes, ports, sp2l, startName);
    }
  }

  /** A composite port whose outgoing link leads back to itself is chased until
      the step bound, which throws. */
  lemma {:induction false} ChaseLoopTooLarge(port: string, i: nat, nodes: map<string, Node>, ports: map<string, Port>,
                                              sp2l: map<string, Link>, startName: string)
    requires i <= MaxChaseIndex + 1
    requires port in ports && ports[port].nodeId in nodes && nodes[ports[port].nodeId].viewType == Composite
    requires port in sp2l && sp2l[port].targetPort == port
    ensures Chase(port, i, nodes, ports, sp2l, startName) == Fail(Failure(Generic, GraphTooLarge, []))
    decreases MaxChaseIndex + 1 - i
  {
    if i <= MaxChaseIndex {
      ChaseLoopTooLarge(port, i + 1, nodes, ports, sp2l, startName);
    }
  }

  /** The links that getActualLinks keeps: those not leaving a composite node. */
  function NonCompositeLinks(links: seq<Link>, nodes: map<string, Node>): seq<Link>
  {
    if |links| == 0 then []
    else
      var last := links[|links| - 1];
      NonCompositeLinks(links[..|links| - 1], nodes)
        + (if last.sourceId in nodes && nodes[last.sourceId].viewType == Composite then [] else [last])
  }

  /** getActualLinks keeps, in order, exactly the links not leaving a composite
      node; each keeps its id, sourceId and sourcePort and is re-targeted to the
      atomic node and port where the chase from its target port ends. */
  lemma {:induction false} ActualLinksSpec(links: seq<Link>, nodes: map<string, Node>, ports: map<string, Port>,
                                            sp2l: map<string, Link>, names: map<string, string>)
    requires ActualLinks(links, nodes, ports, sp2l, names).Ok?
    ensures var r := ActualLinks(links, nodes, ports, sp2l, names).value;
      var kept := NonCompositeLinks(links, nodes);
      |r| == |kept|
      && forall k :: 0 <= k < |r| ==>
           r[k].id == kept[k].id && r[k].sourceId == kept[k].sourceId && r[k].sourcePort == kept[k].sourcePort
           && Chase(kept[k].targetPort, 0, nodes, ports, sp2l, NameOf(names, kept[k].sourceId))
              == Ok(ChaseEnd(r[k].targetId, r[k].targetPort))
    decreases |links|
  {
    if |links| > 0 {
      ActualLinksSpec(links[..|links| - 1], nodes, ports, sp2l, names);
    }
  }

  /** Every link getActualLinks returns starts on an atomic node and ends on an
      existing port of an atomic node. */
  lemma ActualLinksAtomic(links: seq<Link>, nodes: map<string, Node>, ports: map<string, Port>,
                          sp2l: map<string, Link>, names: map<string, string>, k: nat)
    requires ActualLinks(links, nodes, ports, sp2l, names).Ok?
    requires k < |ActualLinks(links, nodes, ports, sp2l, names).value|
    ensures var l := ActualLinks(links, nodes, ports, sp2l, names).value[k];
      l.targetPort in ports && ports[l.targetPort].nodeId in nodes
      && nodes[ports[l.targetPort].nodeId].viewType == Atomic && l.targetId == nodes[ports[l.targetPort].nodeId].id
  {
    ActualLinksSpec(links, nodes, ports, sp2l, names);
    var kept := NonCompositeLinks(links, nodes);
    ChaseSound(kept[k].targetPort, 0, nodes, ports, sp2l, NameOf(names, kept[k].sourceId));
  }

  // ---------------------------------------------------------------------------
  // getActualNodes / getActualOutputPorts

  /** getActualNodes: the atomic nodes, in order; a null list gives none. */
  function ActualNodes(nodes: Option<seq<Node>>): (r: seq<Node>)
    ensures nodes.None? ==> r == []
    ensures nodes.Some? ==> forall n :: n in r <==> n in nodes.value && n.viewType == Atomic
  {
    if nodes.None? then [] else AtomicNodes(nodes.value)
  }

  function AtomicNodes(nodes: seq<Node>): (r: seq<Node>)
    ensures forall n :: n in r <==> n in nodes && n.viewType == Atomic
    ensures |r| <= |nodes|
  {
    if |nodes| == 0 then []
    else (if nodes[0].viewType == Atomic then [nodes[0]] else []) + AtomicNodes(nodes[1..])
  }

  /** The atomic filter keeps the input order: it is the input with the other
      nodes removed. */
  lemma {:induction false} AtomicNodesOrder(a: seq<Node>, b: seq<Node>)
    ensures AtomicNodes(a + b) == AtomicNodes(a) + AtomicNodes(b)
    decreases |a|
  {
    if |a| == 0 {
      assert a + b == b;
    } else {
      assert (a + b)[0] == a[0];
      assert (a + b)[1..] == a[1..] + b;
      AtomicNodesOrder(a[1..], b);
    }
  }

  /** What one port contributes to getActualOutputPorts. */
  function OutputPortOf(p: Port, node: Node): seq<Port>
  {
    if p.portType == OutputPort && node.viewType == Atomic then [p]
    else if p.portType == InputPort && node.taskType == End then [p.(portType := OutputPort)]
    else []
  }

  /** getActualOutputPorts: the output ports of atomic nodes, plus each END
      node's input port as an output copy; a port of an unknown node throws. */
  function ActualOutputPorts(ports: Option<seq<Port>>, index: map<string, Node>): (r: Result<seq<Port>>)
    ensures ports.None? ==> r == Ok([])
    ensures ports.Some? ==> (r.Fail? <==> exists i :: 0 <= i < |ports.value| && ports.value[i].nodeId !in index)
    ensures r.Fail? ==> r.failure.kind == DataConsistency
  {
    if ports.None? then Ok([]) else OutputPorts(ports.value, index)
  }

  function OutputPorts(ports: seq<Port>, index: map<string, Node>): (r: Result<seq<Port>>)
    ensures r.Fail? <==> exists i :: 0 <= i < |ports| && ports[i].nodeId !in index
    ensures r.Fail? ==> r.failure.kind == DataConsistency && r.failure.reason == NodeNotFound
    ensures r.Ok? ==> forall q :: q in r.value ==> q.portType == OutputPort
    ensures r.Ok? ==> |r.value| <= |ports|
    decreases |ports|
  {
    if |ports| == 0 then Ok([])
    else if ports[0].nodeId !in index then Fail(Failure(DataConsistency, NodeNotFound, [ports[0].nodeId]))
    else match OutputPorts(ports[1..], index)
      case Fail(f) =>
        assert exists i :: 0 <= i < |ports[1..]| && ports[1..][i].nodeId !in index;
        var i :| 0 <= i < |ports[1..]| && ports[1..][i].nodeId !in index;
        assert ports[i + 1] == ports[1..][i];
        Fail(f)
      case Ok(rest) =>
        assert forall i :: 1 <= i < |ports| ==> ports[i] == ports[1..][i - 1];
        Ok(OutputPortOf(ports[0], index[ports[0].nodeId]) + rest)
  }

  /** Each port of the result is an atomic node's output port, or an END node's
      input port retyped as output, and it keeps the id, node and properties. */
  lemma {:induction false} OutputPortsFrom(ports: seq<Port>, index: map<string, Node>, q: Port)
    requires OutputPorts(ports, index).Ok? && q in OutputPorts(ports, index).value
    ensures exists p :: (p in ports && p.id == q.id && p.nodeId == q.nodeId && p.props == q.props
      && ((p.portType == OutputPort && index[p.nodeId].viewType == Atomic)
          || (p.portType == InputPort && index[p.nodeId].taskType == End)))
    decreases |ports|
  {
    var head := OutputPortOf(ports[0], index[ports[0].nodeId]);
    if q !in head {
      OutputPortsFrom(ports[1..], index, q);
      var p :| p in ports[1..] && p.id == q.id && p.nodeId == q.nodeId && p.props == q.props
        && ((p.portType == OutputPort && index[p.nodeId].viewType == Atomic)
            || (p.portType == InputPort && index[p.nodeId].taskType == End));
      assert p in ports;
    }
  }

  /** Two lists of ports in a row: the first unknown node of the first list
      stops the loop, then the first of the second; otherwise the result is
      the first list's ports followed by the second's. */
  lemma {:induction false} OutputPortsAppend(a: seq<Port>, b: seq<Port>, index: map<string, Node>)
    ensures OutputPorts(a + b, index) ==
      if OutputPorts(a, index).Fail? then OutputPorts(a, index)
      else if OutputPorts(b, index).Fail? then OutputPorts(b, index)
      else Ok(OutputPorts(a, index).value + OutputPorts(b, index).value)
    decreases |a|
  {
    if |a| == 0 {
      assert a + b == b;
      if OutputPorts(b, index).Ok? {
        assert [] + OutputPorts(b, index).value == OutputPorts(b, index).value;
      }
    } else {
      assert (a + b)[0] == a[0];
      assert (a + b)[1..] == a[1..] + b;
      OutputPortsAppend(a[1..], b, index);
      if a[0].nodeId in index && OutputPorts(a[1..], index).Ok? && OutputPorts(b, index).Ok? {
        var head := OutputPortOf(a[0], index[a[0].nodeId]);
        assert head + (OutputPorts(a[1..], index).value + OutputPorts(b, index).value)
            == (head + OutputPorts(a[1..], index).value) + OutputPorts(b, index).value;
      }
    }
  }

  /** The loop in order: one more port appends what that port contributes,
      or throws for its node when the node is unknown. */
  lemma OutputPortsSnoc(ports: seq<Port>, p: Port, index: map<string, Node>)
    ensures OutputPorts(ports + [p], index) ==
      if OutputPorts(ports, index).Fail? then OutputPorts(ports, index)
      else if p.nodeId !in index then Fail(Failure(DataConsistency, NodeNotFound, [p.nodeId]))
      else Ok(OutputPorts(ports, index).value + OutputPortOf(p, index[p.nodeId]))
  {
    OutputPortsAppend(ports, [p], index);
    assert [p][1..] == [];
    if p.nodeId in index {
      assert OutputPorts([p], index) == Ok(OutputPortOf(p, index[p.nodeId]) + []);
      assert OutputPortOf(p, index[p.nodeId]) + [] == OutputPortOf(p, index[p.nodeId]);
    }
  }

  /** Nothing is dropped: when the loop succeeds, every atomic node's output
      port is in the result, and so is every END node's input port retyped as
      an output port. */
  lemma OutputPortsComplete(ports: seq<Port>, index: map<string, Node>, i: int)
    requires OutputPorts(ports, index).Ok? && 0 <= i < |ports|
    ensures ports[i].nodeId in index
    ensures ports[i].portType == OutputPort && index[ports[i].nodeId].viewType == Atomic ==>
      ports[i] in OutputPorts(ports, index).value
    ensures ports[i].portType == InputPort && index[ports[i].nodeId].taskType == End ==>
      ports[i].(portType := OutputPort) in OutputPorts(ports, index).value
  {
    var pre, p := ports[..i], ports[i];
    assert ports[..i + 1] == pre + [p];
    assert ports == ports[..i + 1] + ports[i + 1..];
    OutputPortsAppend(ports[..i + 1], ports[i + 1..], index);
    OutputPortsSnoc(pre, p, index);
  }
}
