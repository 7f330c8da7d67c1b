// The editor's node service (apps/vs-adapter/src/node/node.service.ts): the
// rules a new node and its ports must meet, and the two-layer view of a
// project the editor loads — the top layer's atomic nodes with their ports
// and its links, and for each top-layer composite node the second layer
// inside it (a virtual node per port of the composite, then its real child
// nodes) with the links that touch it.

module NodeService {
  import opened Wrappers
  import opened Enums
  import opened PortProps
  import opened AdapterStore

  // ---------------------------------------------------------------------------
  // add

  /** PortDto: a port sent with a new node. */
  datatype PortDto = PortDto(id: string, portType: PortType, properties: VsPortProp)

  /** AddNodeDto: the node's columns and its ports. */
  datatype AddNodeDto = AddNodeDto(
    id: string,
    projectId: int,
    taskType: TaskType,
    viewType: ViewType,
    upLevelNodeId: string,
    properties: NodeProps,
    ports: seq<PortDto>)

  const TooManyStarts := "a project has one start node at most; remove the extra ones first"
  const StartTaken := "the project already has a start node"
  const CompositeTaskType := "a composite node has the task type COMPOSITE_END or COMPOSITE_NORMAL"
  const StartInputPort := "a start node cannot have an input port"
  const EndOutputPort := "an end node cannot have an output port"

  /** The CONTEXT (start) nodes of a project. */
  function StartNodes(db: Db, projectId: int): seq<NodeRow>
  {
    Filter(db.nodes, (n: NodeRow) => n.projectId == projectId && n.taskType == Context)
  }

  /** The row of the new node: no script and no artifact yet. */
  function NewNode(req: AddNodeDto): NodeRow
  {
    NodeRow(req.id, req.projectId, req.taskType, req.viewType, req.upLevelNodeId, req.properties, "", [])
  }

  /** The row of one of the new node's ports. */
  function NewPort(req: AddNodeDto, p: PortDto): PortRow
  {
    PortRow(p.id, req.projectId, req.id, p.portType, p.properties)
  }

  /** The rows `createMany` is given, one per port in order. */
  function NewPorts(req: AddNodeDto, ps: seq<PortDto>): (r: seq<PortRow>)
    ensures |r| == |ps|
    ensures forall i :: 0 <= i < |ps| ==> r[i] == NewPort(req, ps[i])
  {
    seq(|ps|, i requires 0 <= i < |ps| => NewPort(req, ps[i]))
  }

  /** The rule one port of the new node must meet. */
  function PortRule(taskType: TaskType, p: PortDto, nodeId: string): Outcome
  {
    if p.portType == InputPort && taskType == Context then Throw(Failure(Unauthorized, StartInputPort, [nodeId]))
    else if p.portType == OutputPort && taskType == CompositeEnd then Throw(Failure(Unauthorized, EndOutputPort, [nodeId]))
    else Pass
  }

  /** The port loop: the failure of the first port that breaks the rule. */
  function PortRules(taskType: TaskType, ps: seq<PortDto>, nodeId: string): Outcome
    decreases |ps|
  {
    if |ps| == 0 then Pass
    else
      match PortRules(taskType, ps[..|ps| - 1], nodeId)
      case Throw(e) => Throw(e)
      case Pass => PortRule(taskType, ps[|ps| - 1], nodeId)
  }

  /** The loop passes exactly when every port meets the rule. */
  lemma {:induction false} PortRulesSpec(taskType: TaskType, ps: seq<PortDto>, nodeId: string)
    ensures PortRules(taskType, ps, nodeId).Pass? <==> forall i :: 0 <= i < |ps| ==> PortRule(taskType, ps[i], nodeId).Pass?
    decreases |ps|
  {
    if |ps| > 0 {
      var init := ps[..|ps| - 1];
      PortRulesSpec(taskType, init, nodeId);
      assert forall i :: 0 <= i < |init| ==> init[i] == ps[i];
    }
  }

  /** Once a prefix of the loop fails, the whole loop fails the same way. */
  lemma {:induction false} PortRulesSticks(taskType: TaskType, ps: seq<PortDto>, nodeId: string, k: nat)
    requires k <= |ps| && PortRules(taskType, ps[..k], nodeId).Throw?
    ensures PortRules(taskType, ps, nodeId) == PortRules(taskType, ps[..k], nodeId)
    decreases |ps| - k
  {
    if k < |ps| {
      assert ps[..k + 1][..k] == ps[..k];
      PortRulesSticks(taskType, ps, nodeId, k + 1);
    } else {
      assert ps[..k] == ps;
    }
  }

  /** `createMany` succeeds when no new id is taken and no two new rows
      share one. */
  predicate FreshIds(ports: seq<PortRow>, rows: seq<PortRow>)
  {
    && (forall i, j :: 0 <= i < |ports| && 0 <= j < |rows| ==> ports[i].id != rows[j].id)
    && (forall i, j :: 0 <= i < j < |rows| ==> rows[i].id != rows[j].id)
  }

  /** NodeService.add: the start-node and composite rules, the node row
      created, then the port loop and `createMany`.  The node row is written
      before the ports are checked and stays when they fail. */
  function NodeAddStep(db: Db, req: AddNodeDto): Step
  {
    var starts := StartNodes(db, req.projectId);
    if |starts| > 1 then Step(Throw(Failure(Unauthorized, TooManyStarts, [])), db)
    else if req.taskType == Context && |starts| == 1 then Step(Throw(Failure(Unauthorized, StartTaken, [])), db)
    else if req.viewType == Composite && req.taskType != CompositeEnd && req.taskType != CompositeNormal then
      Step(Throw(Failure(Unauthorized, CompositeTaskType, [req.id, req.viewType.Code(), req.taskType.Code()])), db)
    else if HasNode(db, req.id) then Step(Throw(Failure(Generic, KeyTaken, [])), db)
    else
      var db1 := db.(nodes := db.nodes + [NewNode(req)]);
      match PortRules(req.taskType, req.ports, req.id)
      case Throw(e) => Step(Throw(e), db1)
      case Pass =>
        var rows := NewPorts(req, req.ports);
        if |rows| == 0 then Step(Pass, db1)
        else if !FreshIds(db.ports, rows) then Step(Throw(Failure(Generic, KeyTaken, [])), db1)
        else Step(Pass, db1.(ports := db.ports + rows))
  }

  /** What an add leaves behind: nothing when a node rule or the node id
      refuses it; otherwise the node row, which stays even when a port is
      refused; and the port rows only when the whole add passes.  A passing
      add respects both node rules and the rule on every port. */
  lemma NodeAddSpec(db: Db, req: AddNodeDto)
    ensures var r := NodeAddStep(db, req);
      var nodeOk := |StartNodes(db, req.projectId)| <= 1
        && !(req.taskType == Context && |StartNodes(db, req.projectId)| == 1)
        && (req.viewType == Composite ==> req.taskType in {CompositeEnd, CompositeNormal})
        && !HasNode(db, req.id);
      && (!nodeOk ==> r == Step(r.outcome, db) && r.outcome.Throw?)
      && (nodeOk ==> r.db.nodes == db.nodes + [NewNode(req)] && r.db.projects == db.projects && r.db.links == db.links)
      && (nodeOk && PortRules(req.taskType, req.ports, req.id).Throw? ==> r.db.ports == db.ports && r.outcome.Throw?)
      && (r.outcome.Pass? ==>
            && nodeOk
            && r.db.ports == db.ports + NewPorts(req, req.ports)
            && (forall i :: 0 <= i < |req.ports| ==>
                  !(req.ports[i].portType == InputPort && req.taskType == Context)
                  && !(req.ports[i].portType == OutputPort && req.taskType == CompositeEnd)))
  {
    PortRulesSpec(req.taskType, req.ports, req.id);
  }

  /** A project keeps one start node at most: an add never gives a project
      a second one, whatever its outcome. */
  lemma NodeAddKeepsOneStart(db: Db, req: AddNodeDto, projectId: int)
    requires |StartNodes(db, projectId)| <= 1
    ensures |StartNodes(NodeAddStep(db, req).db, projectId)| <= 1
  {
    var after := NodeAddStep(db, req).db;
    if after.nodes != db.nodes {
      NodeAddSpec(db, req);
      var p := (n: NodeRow) => n.projectId == projectId && n.taskType == Context;
      assert after.nodes[..|db.nodes|] == db.nodes;
      assert Filter(after.nodes, p) == Filter(db.nodes, p) + (if p(NewNode(req)) then [NewNode(req)] else []);
      if p(NewNode(req)) {
        assert |StartNodes(db, req.projectId)| == 0;
      }
    }
  }

  /** NodeService.add on the store: the node row, then the loop that checks
      each port and collects its row, then `createMany`. */
  method NodeAdd(store: Store, req: AddNodeDto) returns (o: Outcome)
    modifies store
    ensures Step(o, store.State()) == NodeAddStep(old(store.State()), req)
  {
    var db := store.State();
    var starts := StartNodes(db, req.projectId);
    if |starts| > 1 {
      return Throw(Failure(Unauthorized, TooManyStarts, []));
    }
    if req.taskType == Context && |starts| == 1 {
      return Throw(Failure(Unauthorized, StartTaken, []));
    }
    if req.viewType == Composite && req.taskType != CompositeEnd && req.taskType != CompositeNormal {
      return Throw(Failure(Unauthorized, CompositeTaskType, [req.id, req.viewType.Code(), req.taskType.Code()]));
    }
    if HasNode(db, req.id) {
      return Throw(Failure(Generic, KeyTaken, []));
    }
    store.nodes := store.nodes + [NewNode(req)];
    var ports := req.ports;
    var portsToSave: seq<PortRow> := [];
    for i := 0 to |ports|
      invariant store.State() == db.(nodes := db.nodes + [NewNode(req)])
      invariant PortRules(req.taskType, ports[..i], req.id).Pass?
      invariant portsToSave == NewPorts(req, ports[..i])
    {
      assert ports[..i + 1][..i] == ports[..i];
      var rule := PortRule(req.taskType, ports[i], req.id);
      if rule.Throw? {
        PortRulesSticks(req.taskType, ports, req.id, i + 1);
        return rule;
      }
      portsToSave := portsToSave + [NewPort(req, ports[i])];
    }
    assert ports[..|ports|] == ports;
    if |portsToSave| > 0 {
      if !FreshIds(store.ports, portsToSave) {
        return Throw(Failure(Generic, KeyTaken, []));
      }
      store.ports := store.ports + portsToSave;
    }
    o := Pass;
  }

  // ---------------------------------------------------------------------------
  // The maps `list` builds

  /** `nodes.reduce((acc, node) => { acc[node.id] = node; ... })`: the nodes
      by id, a later row taking the key of an earlier one. */
  function NodesMap(nodes: seq<NodeRow>): (m: map<string, NodeRow>)
    ensures forall k :: k in m ==> m[k].id == k && m[k] in nodes
    ensures forall n :: n in nodes ==> n.id in m
    decreases |nodes|
  {
    if |nodes| == 0 then map[]
    else
      var last := nodes[|nodes| - 1];
      assert forall n :: n in nodes[..|nodes| - 1] ==> n in nodes;
      NodesMap(nodes[..|nodes| - 1])[last.id := last]
  }

  /** `portsMap[nodeId]?.ports`: a node's ports in store order. */
  function PortsByNode(ports: seq<PortRow>, nodeId: string): seq<PortRow>
  {
    Filter(ports, (p: PortRow) => p.nodeId == nodeId)
  }

  /** `childNodesMap[parentId] || []`: the children of a node, in store
      order. */
  function Children(nodes: seq<NodeRow>, parentId: string): seq<NodeRow>
  {
    Filter(nodes, (n: NodeRow) => n.upLevelNodeId == parentId)
  }

  /** An optional-chained list: undefined when there is none. */
  function Present(ps: seq<PortRow>): Option<seq<PortRow>>
  {
    if |ps| == 0 then None else Some(ps)
  }

  // ---------------------------------------------------------------------------
  // A stable sort by a numeric key (Array.prototype.sort with `a.k - b.k`)

  predicate SortedBy<T>(s: seq<T>, key: T -> int)
  {
    forall i, j :: 0 <= i < j < |s| ==> key(s[i]) <= key(s[j])
  }

  /** `x` placed after every element whose key is not greater. */
  function InsertBy<T>(s: seq<T>, x: T, key: T -> int): seq<T>
    decreases |s|
  {
    if |s| == 0 then [x]
    else if key(s[|s| - 1]) <= key(x) then s + [x]
    else InsertBy(s[..|s| - 1], x, key) + [s[|s| - 1]]
  }

  /** The stable sort: each element inserted, in order, into the sorted
      prefix before it. */
  function SortBy<T>(xs: seq<T>, key: T -> int): seq<T>
    decreases |xs|
  {
    if |xs| == 0 then [] else InsertBy(SortBy(xs[..|xs| - 1], key), xs[|xs| - 1], key)
  }

  /** Inserting adds the one element. */
  lemma {:induction false} InsertByCount<T>(s: seq<T>, x: T, key: T -> int)
    ensures multiset(InsertBy(s, x, key)) == multiset(s) + multiset{x}
    decreases |s|
  {
    if |s| > 0 && key(s[|s| - 1]) > key(x) {
      InsertByCount(s[..|s| - 1], x, key);
      assert s == s[..|s| - 1] + [s[|s| - 1]];
    }
  }

  /** Inserting into a sorted sequence keeps it sorted. */
  lemma {:induction false} InsertBySorted<T>(s: seq<T>, x: T, key: T -> int)
    requires SortedBy(s, key)
    ensures SortedBy(InsertBy(s, x, key), key)
    decreases |s|
  {
    if |s| > 0 && key(s[|s| - 1]) > key(x) {
      var init, last := s[..|s| - 1], s[|s| - 1];
      InsertBySorted(init, x, key);
      InsertByCount(init, x, key);
      var r := InsertBy(init, x, key);
      forall i | 0 <= i < |r| ensures key(r[i]) <= key(last) {
        assert r[i] in multiset(r);
        if r[i] != x {
          var k :| 0 <= k < |init| && init[k] == r[i];
          assert s[k] == r[i];
        }
      }
    }
  }

  /** The sort orders by the key and keeps every element, as often as it
      occurs. */
  lemma {:induction false} SortBySpec<T>(xs: seq<T>, key: T -> int)
    ensures SortedBy(SortBy(xs, key), key)
    ensures multiset(SortBy(xs, key)) == multiset(xs)
    decreases |xs|
  {
    if |xs| > 0 {
      var init := xs[..|xs| - 1];
      SortBySpec(init, key);
      InsertBySorted(SortBy(init, key), xs[|xs| - 1], key);
      InsertByCount(SortBy(init, key), xs[|xs| - 1], key);
      assert xs == init + [xs[|xs| - 1]];
    }
  }

  /** With a key that makes every pair equal the sort changes nothing. */
  lemma {:induction false} SortByEqualKeys<T>(xs: seq<T>, key: T -> int, c: int)
    requires forall x :: key(x) == c
    ensures SortBy(xs, key) == xs
    decreases |xs|
  {
    if |xs| > 0 {
      SortByEqualKeys(xs[..|xs| - 1], key, c);
      assert xs[..|xs| - 1] + [xs[|xs| - 1]] == xs;
    }
  }

  /** `a.properties.order - b.properties.order` on parsed ports. */
  function PortOrder(p: PortRow): int
  {
    p.properties.order
  }

  /** The same comparator on raw rows, whose properties are still JSON text:
      `order` is undefined on both sides and the difference is NaN, which
      the sort takes as "equal". */
  function RawPortOrder(p: PortRow): int
  {
    0
  }

  /** The parsed ports of a node, sorted by order (getEndpointDefinitions
      parses before sorting). */
  function SortedPorts(ports: seq<PortRow>, nodeId: string): seq<PortRow>
  {
    SortBy(PortsByNode(ports, nodeId), PortOrder)
  }

  /** `portsMap[id]?.ports.sort(...)` on raw rows, as written: the sort is a
      no-op and the ports stay in store order. */
  function RawSortedPortsAsWritten(ports: seq<PortRow>, nodeId: string): Option<seq<PortRow>>
  {
    Present(SortBy(PortsByNode(ports, nodeId), RawPortOrder))
  }

  /** The same lists sorted by order, as intended. */
  function RawSortedPorts(ports: seq<PortRow>, nodeId: string): Option<seq<PortRow>>
  {
    Present(SortedPorts(ports, nodeId))
  }

  /** As written the ports of a real child node (and of a composite's own
      route definition) keep store order; as intended they are sorted by
      order: two ports with orders 2 and 1 show the difference. */
  lemma RawSortKeepsStoreOrder(p: PortRow, q: PortRow)
    requires p.nodeId == q.nodeId && p.properties.order == 2 && q.properties.order == 1
    ensures RawSortedPortsAsWritten([p, q], p.nodeId) == Some([p, q])
    ensures RawSortedPorts([p, q], p.nodeId) == Some([q, p])
  {
    assert [p, q][..1] == [p] && [p][..0] == [];
    var f := (r: PortRow) => r.nodeId == p.nodeId;
    assert Filter([p][..0], f) == [];
    assert Filter([p], f) == [p];
    assert PortsByNode([p], p.nodeId) == [p];
    assert PortsByNode([p, q], p.nodeId) == [p, q];
    SortByEqualKeys([p, q], RawPortOrder, 0);
    assert SortBy([p], PortOrder) == [p];
    assert InsertBy([p], q, PortOrder) == [q, p];
  }

  /** In general the written sort leaves store order, and the intended one
      orders by `order` and keeps every port of the node. */
  lemma RawSortSpec(ports: seq<PortRow>, nodeId: string)
    ensures RawSortedPortsAsWritten(ports, nodeId) == Present(PortsByNode(ports, nodeId))
    ensures RawSortedPorts(ports, nodeId).Some? ==>
      && SortedBy(RawSortedPorts(ports, nodeId).value, PortOrder)
      && multiset(RawSortedPorts(ports, nodeId).value) == multiset(PortsByNode(ports, nodeId))
  {
    SortByEqualKeys(PortsByNode(ports, nodeId), RawPortOrder, 0);
    SortBySpec(PortsByNode(ports, nodeId), PortOrder);
  }

  // ---------------------------------------------------------------------------
  // The top layer

  /** The top layer's atomic nodes. */
  function TopAtomic(nodes: seq<NodeRow>): seq<NodeRow>
  {
    Filter(nodes, (n: NodeRow) => n.viewType == Atomic && n.upLevelNodeId == TopLevel)
  }

  /** The top layer's composite nodes. */
  function TopComposite(nodes: seq<NodeRow>): seq<NodeRow>
  {
    Filter(nodes, (n: NodeRow) => n.viewType == Composite && n.upLevelNodeId == TopLevel)
  }

  /** The two lists split the top layer: each top-layer node is in exactly
      one of them, and neither holds any other node. */
  lemma TopLayerSplit(nodes: seq<NodeRow>)
    ensures forall n :: n in nodes && n.upLevelNodeId == TopLevel ==> (n in TopAtomic(nodes) <==> n !in TopComposite(nodes))
    ensures forall n :: n in TopAtomic(nodes) || n in TopComposite(nodes) ==> n in nodes && n.upLevelNodeId == TopLevel
  {
    FilterMembers(nodes, (n: NodeRow) => n.viewType == Atomic && n.upLevelNodeId == TopLevel);
    FilterMembers(nodes, (n: NodeRow) => n.viewType == Composite && n.upLevelNodeId == TopLevel);
  }

  /** An atomic node of the top layer with its ports. */
  datatype Endpoint = Endpoint(node: NodeRow, ports: seq<PortRow>)

  /** getEndpointDefinitions: each node with its parsed ports sorted by order
      (none when it has no ports). */
  function EndpointDefinitions(topAtomic: seq<NodeRow>, ports: seq<PortRow>): seq<Endpoint>
  {
    seq(|topAtomic|, i requires 0 <= i < |topAtomic| => Endpoint(topAtomic[i], SortedPorts(ports, topAtomic[i].id)))
  }

  /** One definition per node, in order, holding exactly that node's ports,
      sorted by order. */
  lemma EndpointDefinitionsSpec(topAtomic: seq<NodeRow>, ports: seq<PortRow>, i: int)
    requires 0 <= i < |topAtomic|
    ensures |EndpointDefinitions(topAtomic, ports)| == |topAtomic|
    ensures var e := EndpointDefinitions(topAtomic, ports)[i];
      && e.node == topAtomic[i]
      && SortedBy(e.ports, PortOrder)
      && multiset(e.ports) == multiset(PortsByNode(ports, topAtomic[i].id))
  {
    SortBySpec(PortsByNode(ports, topAtomic[i].id), PortOrder);
  }

  const NodeUndefined := "cannot read upLevelNodeId of undefined"

  /** A filter loop whose test may throw: the elements it keeps, in order, or
      the failure of the first element whose test throws. */
  function Select<T>(xs: seq<T>, keep: T -> Result<bool>): Result<seq<T>>
    decreases |xs|
  {
    if |xs| == 0 then Ok([])
    else
      match Select(xs[..|xs| - 1], keep)
      case Fail(e) => Fail(e)
      case Ok(ys) =>
        match keep(xs[|xs| - 1])
        case Fail(e) => Fail(e)
        case Ok(b) => Ok(ys + (if b then [xs[|xs| - 1]] else []))
  }

  /** The loop passes exactly when no test throws, and then keeps exactly the
      elements whose test holds; a failing loop fails at an element all of
      whose predecessors pass. */
  lemma {:induction false} SelectSpec<T>(xs: seq<T>, keep: T -> Result<bool>)
    ensures Select(xs, keep).Ok? <==> forall i :: 0 <= i < |xs| ==> keep(xs[i]).Ok?
    ensures Select(xs, keep).Ok? ==> Select(xs, keep).value == Filter(xs, (x: T) => keep(x) == Ok(true))
    ensures Select(xs, keep).Ok? ==> forall x :: x in Select(xs, keep).value <==> x in xs && keep(x) == Ok(true)
    ensures Select(xs, keep).Fail? ==>
      exists i :: 0 <= i < |xs| && keep(xs[i]) == Fail(Select(xs, keep).failure)
                  && forall j :: 0 <= j < i ==> keep(xs[j]).Ok?
    decreases |xs|
  {
    if |xs| > 0 {
      var last := |xs| - 1;
      var init := xs[..last];
      SelectSpec(init, keep);
      FilterMembers(xs, (x: T) => keep(x) == Ok(true));
      assert forall i :: 0 <= i < last ==> init[i] == xs[i];
      if Select(init, keep).Ok? {
        assert Select(init, keep).value == Filter(init, (x: T) => keep(x) == Ok(true));
        if keep(xs[last]).Fail? {
          assert keep(xs[last]) == Fail(Select(xs, keep).failure);
        }
      } else {
        var i :| 0 <= i < |init| && keep(init[i]) == Fail(Select(init, keep).failure)
                  && forall j :: 0 <= j < i ==> keep(init[j]).Ok?;
        assert keep(xs[i]) == Fail(Select(xs, keep).failure);
      }
    }
  }

  /** The test of getUpLayerLinks on one link: both endpoints on the top
      layer.  An unknown endpoint is a TypeError, but the end node is only
      read when the start node is on the top layer. */
  function UpLayerKeep(m: map<string, NodeRow>, l: LinkRow): Result<bool>
  {
    if l.sourceId !in m then Fail(Failure(TypeErr, NodeUndefined, []))
    else if m[l.sourceId].upLevelNodeId != TopLevel then Ok(false)
    else if l.targetId !in m then Fail(Failure(TypeErr, NodeUndefined, []))
    else Ok(m[l.targetId].upLevelNodeId == TopLevel)
  }

  /** getUpLayerLinks. */
  function UpLayerLinks(links: seq<LinkRow>, m: map<string, NodeRow>): Result<seq<LinkRow>>
  {
    Select(links, (l: LinkRow) => UpLayerKeep(m, l))
  }

  /** The top layer's links are, in order, exactly the links whose two
      endpoints are known nodes on the top layer; the loop fails exactly
      when some link starts at an unknown node, or starts on the top layer
      and ends at an unknown node. */
  lemma UpLayerLinksSpec(links: seq<LinkRow>, m: map<string, NodeRow>)
    ensures UpLayerLinks(links, m).Ok? <==>
      forall i :: 0 <= i < |links| ==>
        links[i].sourceId in m && (m[links[i].sourceId].upLevelNodeId == TopLevel ==> links[i].targetId in m)
    ensures UpLayerLinks(links, m).Fail? ==> UpLayerLinks(links, m).failure.kind == TypeErr
    ensures UpLayerLinks(links, m).Ok? ==>
      forall l :: l in UpLayerLinks(links, m).value <==>
        l in links && l.sourceId in m && l.targetId in m
        && m[l.sourceId].upLevelNodeId == TopLevel && m[l.targetId].upLevelNodeId == TopLevel
  {
    var keep := (l: LinkRow) => UpLayerKeep(m, l);
    SelectSpec(links, keep);
    if UpLayerLinks(links, m).Fail? {
      var e := UpLayerLinks(links, m).failure;
      var i :| 0 <= i < |links| && keep(links[i]) == Fail(e);
    }
  }

  // ---------------------------------------------------------------------------
  // The second layer

  /** The test of getDownLayerLinks on one link for the composite `c`: an
      endpoint inside `c`, or `c` itself at one end with the other end
      outside.  The end node is read only when the start node is not a child
      of `c`. */
  function DownLayerKeep(m: map<string, NodeRow>, c: string, l: LinkRow): Result<bool>
  {
    if l.sourceId !in m then Fail(Failure(TypeErr, NodeUndefined, []))
    else
      var s := m[l.sourceId];
      if s.upLevelNodeId == c then Ok(true)
      else if l.targetId !in m then Fail(Failure(TypeErr, NodeUndefined, []))
      else
        var e := m[l.targetId];
        Ok(e.upLevelNodeId == c
           || (s.id == c && e.upLevelNodeId != c)
           || (e.id == c && s.upLevelNodeId != c))
  }

  /** getDownLayerLinks. */
  function DownLayerLinks(links: seq<LinkRow>, m: map<string, NodeRow>, c: string): Result<seq<LinkRow>>
  {
    Select(links, (l: LinkRow) => DownLayerKeep(m, c, l))
  }

  /** On a map keyed by id the three cases say simply: a link belongs to the
      second layer of `c` when an endpoint is a child of `c` or is `c`
      itself. */
  lemma DownLayerKeepSimple(nodes: seq<NodeRow>, c: string, l: LinkRow)
    requires l.sourceId in NodesMap(nodes) && l.targetId in NodesMap(nodes)
    ensures var m := NodesMap(nodes);
      DownLayerKeep(m, c, l) == Ok(m[l.sourceId].upLevelNodeId == c || m[l.targetId].upLevelNodeId == c
                                  || l.sourceId == c || l.targetId == c)
  {
  }

  /** The second layer's links are, in order, the links the test keeps, and
      the loop fails exactly when some link's test reads an unknown node. */
  lemma DownLayerLinksSpec(links: seq<LinkRow>, m: map<string, NodeRow>, c: string)
    ensures DownLayerLinks(links, m, c).Ok? <==>
      forall i :: 0 <= i < |links| ==>
        links[i].sourceId in m && (m[links[i].sourceId].upLevelNodeId != c ==> links[i].targetId in m)
    ensures DownLayerLinks(links, m, c).Fail? ==> DownLayerLinks(links, m, c).failure.kind == TypeErr
    ensures DownLayerLinks(links, m, c).Ok? ==>
      forall l :: l in DownLayerLinks(links, m, c).value <==> l in links && DownLayerKeep(m, c, l) == Ok(true)
  {
    var keep := (l: LinkRow) => DownLayerKeep(m, c, l);
    SelectSpec(links, keep);
    if DownLayerLinks(links, m, c).Fail? {
      var e := DownLayerLinks(links, m, c).failure;
      var i :| 0 <= i < |links| && keep(links[i]) == Fail(e);
    }
  }

  /** A node of the second layer: a virtual node standing for a port of the
      composite, or a real child node with its ports. */
  datatype DownNode =
    | Virtual(id: string, upLevelNodeId: string, name: Option<string>, order: int, virtualType: VirtualType)
    | Real(node: NodeRow, ports: Option<seq<PortRow>>)

  /** The virtual node of a port of the composite `c`. */
  function VirtualOf(p: PortRow, c: string): DownNode
  {
    Virtual(p.id, c, p.properties.name, p.properties.order,
            if p.portType == InputPort then VirtualInput else VirtualOutput)
  }

  /** `a.order - b.order` on the second layer's nodes. */
  function DownOrder(d: DownNode): int
  {
    if d.Virtual? then d.order else 0
  }

  /** The virtual nodes of some ports, one per port in order. */
  function VirtualsOf(ps: seq<PortRow>, c: string): (r: seq<DownNode>)
    ensures |r| == |ps|
    ensures forall i :: 0 <= i < |ps| ==> r[i] == VirtualOf(ps[i], c)
  {
    seq(|ps|, i requires 0 <= i < |ps| => VirtualOf(ps[i], c))
  }

  /** The real children with their ports, in store order. */
  function RealsOf(children: seq<NodeRow>, ports: seq<PortRow>): (r: seq<DownNode>)
    ensures |r| == |children|
    ensures forall i :: 0 <= i < |children| ==> r[i] == Real(children[i], RawSortedPorts(ports, children[i].id))
  {
    seq(|children|, i requires 0 <= i < |children| => Real(children[i], RawSortedPorts(ports, children[i].id)))
  }

  const PortsNotIterable := "componentPorts is not iterable"

  /** getDownLayerNodes: the virtual nodes sorted by order, then the real
      children.  A composite without ports has no port list to iterate, a
      TypeError. */
  function DownLayerNodesOf(ports: seq<PortRow>, nodes: seq<NodeRow>, c: string): Result<seq<DownNode>>
  {
    var componentPorts := PortsByNode(ports, c);
    if |componentPorts| == 0 then Fail(Failure(TypeErr, PortsNotIterable, []))
    else Ok(SortBy(VirtualsOf(componentPorts, c), DownOrder) + RealsOf(Children(nodes, c), ports))
  }

  /** The second layer of a composite with ports: first one virtual node per
      port of the composite, with the port's id, name and order, the
      composite as parent and the kind given by the port's type, sorted by
      order; then every child node of the composite, in store order, with
      its own ports. */
  lemma DownLayerNodesSpec(ports: seq<PortRow>, nodes: seq<NodeRow>, c: string)
    ensures DownLayerNodesOf(ports, nodes, c).Fail? <==> PortsByNode(ports, c) == []
    ensures DownLayerNodesOf(ports, nodes, c).Ok? ==>
      var r := DownLayerNodesOf(ports, nodes, c).value;
      var n := |PortsByNode(ports, c)|;
      && |r| == n + |Children(nodes, c)|
      && SortedBy(r[..n], DownOrder)
      && multiset(r[..n]) == multiset(VirtualsOf(PortsByNode(ports, c), c))
      && (forall i :: 0 <= i < n ==> r[i].Virtual? && r[i].upLevelNodeId == c)
      && r[n..] == RealsOf(Children(nodes, c), ports)
  {
    var ps := PortsByNode(ports, c);
    if |ps| > 0 {
      var vs := SortBy(VirtualsOf(ps, c), DownOrder);
      SortBySpec(VirtualsOf(ps, c), DownOrder);
      var r := vs + RealsOf(Children(nodes, c), ports);
      assert r[..|ps|] == vs;
      assert |vs| == |ps| by {
        assert |multiset(vs)| == |multiset(VirtualsOf(ps, c))|;
      }
      forall i | 0 <= i < |ps| ensures r[i].Virtual? && r[i].upLevelNodeId == c {
        assert vs[i] in multiset(VirtualsOf(ps, c));
        var k :| 0 <= k < |ps| && VirtualsOf(ps, c)[k] == vs[i];
      }
    }
  }

  /** getDownLayerNodes: the loop that builds a virtual node per port, the
      sort, and the loop that adds the real children. */
  method GetDownLayerNodes(ports: seq<PortRow>, nodes: seq<NodeRow>, c: string) returns (r: Result<seq<DownNode>>)
    ensures r == DownLayerNodesOf(ports, nodes, c)
  {
    var componentPorts := PortsByNode(ports, c);
    if |componentPorts| == 0 {
      return Fail(Failure(TypeErr, PortsNotIterable, []));
    }
    var down: seq<DownNode> := [];
    for i := 0 to |componentPorts|
      invariant down == VirtualsOf(componentPorts[..i], c)
    {
      down := down + [VirtualOf(componentPorts[i], c)];
    }
    assert componentPorts[..|componentPorts|] == componentPorts;
    down := SortBy(down, DownOrder);
    var realNodes := Children(nodes, c);
    ghost var virtuals := down;
    for i := 0 to |realNodes|
      invariant down == virtuals + RealsOf(realNodes[..i], ports)
    {
      down := down + [Real(realNodes[i], RawSortedPorts(ports, realNodes[i].id))];
    }
    assert realNodes[..|realNodes|] == realNodes;
    r := Ok(down);
  }

  /** A composite of the top layer with its second layer. */
  datatype RouteDefinition = RouteDefinition(node: NodeRow, links: seq<LinkRow>, ports: Option<seq<PortRow>>, nodes: seq<DownNode>)

  /** The route definition of one composite, in the source's order: its
      links, its own ports, its second-layer nodes. */
  function RouteDefinitionOf(m: map<string, NodeRow>, links: seq<LinkRow>, ports: seq<PortRow>,
                             nodes: seq<NodeRow>, n: NodeRow): Result<RouteDefinition>
  {
    match DownLayerLinks(links, m, n.id)
    case Fail(e) => Fail(e)
    case Ok(ls) =>
      match DownLayerNodesOf(ports, nodes, n.id)
      case Fail(e) => Fail(e)
      case Ok(ds) => Ok(RouteDefinition(n, ls, RawSortedPorts(ports, n.id), ds))
  }

  /** getRouteDefinitions: one definition per composite, or the first
      failure. */
  function RouteDefinitions(composites: seq<NodeRow>, m: map<string, NodeRow>, links: seq<LinkRow>,
                            ports: seq<PortRow>, nodes: seq<NodeRow>): Result<seq<RouteDefinition>>
  {
    MapAll(composites, (n: NodeRow) => RouteDefinitionOf(m, links, ports, nodes, n))
  }

  // ---------------------------------------------------------------------------
  // list

  const ProjectNotFound := "the project does not exist"

  /** What `list` returns. */
  datatype Layers = Layers(endpointDefinitions: seq<Endpoint>, links: seq<LinkRow>, routeDefinitions: seq<RouteDefinition>)

  /** The rows of one project. */
  function ProjectNodes(db: Db, projectId: int): seq<NodeRow> { Filter(db.nodes, (n: NodeRow) => n.projectId == projectId) }
  function ProjectPorts(db: Db, projectId: int): seq<PortRow> { Filter(db.ports, (p: PortRow) => p.projectId == projectId) }
  function ProjectLinks(db: Db, projectId: int): seq<LinkRow> { Filter(db.links, (l: LinkRow) => l.projectId == projectId) }

  /** An exception of the two layer builders, rethrown as unauthorized. */
  function Unauthorize(e: Failure): Failure
  {
    Failure(Unauthorized, e.reason, e.subjects)
  }

  /** NodeService.list: the project must exist; the builders run on its own
      rows. */
  function List(db: Db, projectId: int): Result<Layers>
  {
    if ProjectById(db, projectId).None? then Fail(Failure(NotFound, ProjectNotFound, []))
    else
      var nodes := ProjectNodes(db, projectId);
      var ports := ProjectPorts(db, projectId);
      var links := ProjectLinks(db, projectId);
      var m := NodesMap(nodes);
      var endpoints := EndpointDefinitions(TopAtomic(nodes), ports);
      match UpLayerLinks(links, m)
      case Fail(e) => Fail(Unauthorize(e))
      case Ok(up) =>
        match RouteDefinitions(TopComposite(nodes), m, links, ports, nodes)
        case Fail(e) => Fail(Unauthorize(e))
        case Ok(routes) => Ok(Layers(endpoints, up, routes))
  }

  /** A missing project is not found; any other failure is a builder's,
      rethrown as unauthorized.  A listing holds one endpoint per top-layer
      atomic node of the project, the project's links between top-layer
      nodes, and one route definition per top-layer composite node, in
      order. */
  lemma ListSpec(db: Db, projectId: int)
    ensures List(db, projectId).Fail? ==>
      (List(db, projectId).failure.kind == NotFound <==> ProjectById(db, projectId).None?)
      && List(db, projectId).failure.kind in {NotFound, Unauthorized}
    ensures List(db, projectId).Ok? ==>
      var r := List(db, projectId).value;
      var nodes := ProjectNodes(db, projectId);
      && ProjectById(db, projectId).Some?
      && |r.endpointDefinitions| == |TopAtomic(nodes)|
      && (forall i :: 0 <= i < |r.endpointDefinitions| ==> r.endpointDefinitions[i].node == TopAtomic(nodes)[i])
      && (forall l :: l in r.links ==>
            (l in db.links && l.projectId == projectId
             && exists s, t :: s in nodes && t in nodes && s.id == l.sourceId && t.id == l.targetId
                               && s.upLevelNodeId == TopLevel && t.upLevelNodeId == TopLevel))
      && |r.routeDefinitions| == |TopComposite(nodes)|
      && (forall i :: 0 <= i < |r.routeDefinitions| ==> r.routeDefinitions[i].node == TopComposite(nodes)[i])
  {
    if List(db, projectId).Ok? {
      var nodes := ProjectNodes(db, projectId);
      var links := ProjectLinks(db, projectId);
      var m := NodesMap(nodes);
      UpLayerLinksSpec(links, m);
      FilterMembers(db.links, (l: LinkRow) => l.projectId == projectId);
      var f := (n: NodeRow) => RouteDefinitionOf(m, links, ProjectPorts(db, projectId), nodes, n);
      MapAllOkValues(TopComposite(nodes), f);
      forall l | l in List(db, projectId).value.links
        ensures exists s, t :: s in nodes && t in nodes && s.id == l.sourceId && t.id == l.targetId
                               && s.upLevelNodeId == TopLevel && t.upLevelNodeId == TopLevel
      {
        assert m[l.sourceId] in nodes && m[l.targetId] in nodes;
      }
      forall i | 0 <= i < |List(db, projectId).value.routeDefinitions|
        ensures List(db, projectId).value.routeDefinitions[i].node == TopComposite(nodes)[i]
      {
        assert f(TopComposite(nodes)[i]).Ok?;
      }
    }
  }
}
