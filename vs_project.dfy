// The project loader of the runtime (apps/vs-run/src/vs-project/
// vs-project.service.ts): it finds the published project of a context path,
// compiles its stored graph into an executable flow (the flattened links,
// the static flow and its id sets, one task class per valid node, one
// circuit breaker per configured HTTP node) and keeps the result in a
// size-bounded cache that expires after a day.

module VsProject {
  import opened Wrappers
  import opened Enums
  import opened Strs
  import opened OrderedMaps
  import opened FlowModel
  import opened Topology
  import opened FlowTask
  import opened RuntimeFlow
  import PortProps

  /** CACHE_TTL_DAYS: one day in milliseconds. */
  const CacheTtl := 24 * 60 * 60 * 1000
  /** MAX_CACHE_SIZE. */
  const MaxCacheSize := 512

  const ProjectNotFound := "unable to find the project to execute"
  const ProjectOffline := "project is offline"
  const NodeMissing := "node not found in project"
  const EmptyTask := "node task is empty"
  const ClassLoadFailed := "node task metadata failed to load"
  const BadPortCount := "illegal number of ports"
  const PropsNotText := "port properties are not text"

  /** The columns of the project row the loader selects. */
  datatype DbProject = DbProject(
    id: int,
    name: string,
    verb: HttpMethod,
    state: ProjectState,
    compileVersion: int)

  /** A project's stored graph, as the three list queries return it. */
  datatype Graph = Graph(links: seq<Link>, ports: seq<Port>, nodes: seq<Node>)

  /** VsExecFlow: the compiled project. The data-conversion table is left out
      (its builder never adds an entry). */
  datatype VsExecFlow = VsExecFlow(
    id: int,
    name: string,
    compileVersion: int,
    contextPath: string,
    verb: HttpMethod,
    exec: ExecFlow)

  // ---------------------------------------------------------------------------
  // The lookup tables

  /** nodeId2NodeName: `m.set(node.id, node.name)` for each node, so the
      last node stored under an id names it. */
  function NameTable(nodes: seq<Node>): map<string, string>
    decreases |nodes|
  {
    if |nodes| == 0 then map[]
    else NameTable(nodes[..|nodes| - 1])[nodes[|nodes| - 1].id := nodes[|nodes| - 1].name]
  }

  /** The name table has the ids of the node index, each with the name of
      the node the index keeps. */
  lemma {:induction false} NameTableSpec(nodes: seq<Node>)
    ensures NameTable(nodes).Keys == NodeIndex(nodes).Keys
    ensures forall k :: k in NameTable(nodes) ==> NameTable(nodes)[k] == NodeIndex(nodes)[k].name
    decreases |nodes|
  {
    if |nodes| > 0 {
      NameTableSpec(nodes[..|nodes| - 1]);
    }
  }

  /** The forEach that fills nodeId2NodeName. */
  method BuildNameTable(nodes: seq<Node>) returns (names: map<string, string>)
    ensures names == NameTable(nodes)
  {
    names := map[];
    for i := 0 to |nodes|
      invariant names == NameTable(nodes[..i])
    {
      assert nodes[..i + 1][..i] == nodes[..i];
      names := names[nodes[i].id := nodes[i].name];
    }
    assert nodes[..|nodes|] == nodes;
  }

  /** Each node of the node index is stored under its own id. */
  lemma NodeIndexKeys(nodes: seq<Node>)
    ensures forall k :: k in NodeIndex(nodes) ==> NodeIndex(nodes)[k].id == k
  {
    forall k | k in NodeIndex(nodes) ensures NodeIndex(nodes)[k].id == k {
      IndexByEntries(nodes, NodeKey, k);
    }
  }

  /** nodeId2node as the insertion-ordered Map it is: ids in the order they
      first occur, each with the last node stored under it. */
  function NodeTable(nodes: seq<Node>): OMap<Node>
    decreases |nodes|
  {
    if |nodes| == 0 then Empty<Node>()
    else NodeTable(nodes[..|nodes| - 1]).Put(nodes[|nodes| - 1].id, nodes[|nodes| - 1])
  }

  /** The ordered table is valid, holds the same entries as the plain index,
      and lists exactly the node ids. */
  lemma {:induction false} NodeTableSpec(nodes: seq<Node>)
    ensures NodeTable(nodes).Valid()
    ensures NodeTable(nodes).vals == NodeIndex(nodes)
    ensures forall k :: k in NodeTable(nodes).keys <==> exists i :: 0 <= i < |nodes| && nodes[i].id == k
    decreases |nodes|
  {
    if |nodes| > 0 {
      var init := nodes[..|nodes| - 1];
      var last := nodes[|nodes| - 1];
      NodeTableSpec(init);
      PutSpec(NodeTable(init), last.id, last);
      forall k ensures k in NodeTable(nodes).keys <==> exists i :: 0 <= i < |nodes| && nodes[i].id == k {
        if exists i :: 0 <= i < |nodes| && nodes[i].id == k {
          var i :| 0 <= i < |nodes| && nodes[i].id == k;
          if i < |init| { assert init[i] == nodes[i]; }
        }
        if exists i :: 0 <= i < |init| && init[i].id == k {
          var i :| 0 <= i < |init| && init[i].id == k;
          assert nodes[i] == init[i];
        }
      }
    }
  }

  /** The output ports, in order (`ports.filter(p => p.type === OUTPUT_PORT)`). */
  function OutputsOf(ports: seq<Port>): (r: seq<Port>)
    ensures forall p :: p in r <==> p in ports && p.portType == OutputPort
    decreases |ports|
  {
    if |ports| == 0 then []
    else
      var last := ports[|ports| - 1];
      OutputsOf(ports[..|ports| - 1]) + (if last.portType == OutputPort then [last] else [])
  }

  /** nodeId2OutputPorts.get(id) || []: a node's output ports, in order. */
  function OutPortsOf(ports: seq<Port>, id: string): seq<Port>
  {
    Select(OutputsOf(ports), PortNodeKey, id)
  }

  /** A failure of the flow-building helpers: a data-consistency error is
      thrown again as an adapter error with the same message, any other
      error as it is. */
  function Rethrow(f: Failure): (g: Failure)
    ensures g.reason == f.reason && g.subjects == f.subjects
    ensures g.kind == (if f.kind == DataConsistency then Adapter else f.kind)
  {
    if f.kind == DataConsistency then f.(kind := Adapter) else f
  }

  /** The forEach that fills nodeId2node. */
  method BuildNodeTable(nodes: seq<Node>) returns (t: OMap<Node>)
    ensures t == NodeTable(nodes)
  {
    t := Empty<Node>();
    for i := 0 to |nodes|
      invariant t == NodeTable(nodes[..i])
    {
      assert nodes[..i + 1][..i] == nodes[..i];
      t := t.Put(nodes[i].id, nodes[i]);
    }
    assert nodes[..|nodes|] == nodes;
  }

  // ---------------------------------------------------------------------------
  // Task classes

  /** The class of one valid node: the node must be atomic, carry a
      non-empty artifact, and the artifact must load (`load` stands for
      FlowNodeUtil.getClass); each failure is an adapter error naming the
      project and the node. */
  function ClassOf(id: string, atomic: map<string, Node>, load: (string, seq<int>) -> Result<Behaviour>,
                   projectName: string, names: map<string, string>): Result<Behaviour>
  {
    if id !in atomic then Fail(Failure(Adapter, NodeMissing, [projectName, NameOf(names, id)]))
    else if |atomic[id].classBytes| == 0 then Fail(Failure(Adapter, EmptyTask, [projectName, NameOf(names, id)]))
    else match load(atomic[id].id, atomic[id].classBytes)
      case Fail(_) => Fail(Failure(Adapter, ClassLoadFailed, [projectName, NameOf(names, id)]))
      case Ok(b) => Ok(b)
  }

  /** nodeId2Class: the classes of the valid nodes, in order; the first node
      that fails ends the build. */
  ghost function Classes(ids: seq<string>, atomic: map<string, Node>, load: (string, seq<int>) -> Result<Behaviour>,
                         projectName: string, names: map<string, string>): Result<map<string, Behaviour>>
  {
    Tabulate(ids, k => ClassOf(k, atomic, load, projectName, names))
  }

  /** The class table has exactly the valid nodes, each with what its
      artifact loads to; when it fails, some valid node is missing from the
      atomic nodes, has an empty artifact or does not load, and the error is
      an adapter error naming the project. */
  lemma ClassesSpec(ids: seq<string>, atomic: map<string, Node>, load: (string, seq<int>) -> Result<Behaviour>,
                    projectName: string, names: map<string, string>)
    ensures var r := Classes(ids, atomic, load, projectName, names);
      r.Ok? ==> (
        && r.value.Keys == (set k | k in ids)
        && forall k :: k in ids ==> (
             && k in atomic && |atomic[k].classBytes| > 0
             && load(atomic[k].id, atomic[k].classBytes) == Ok(r.value[k])))
    ensures var r := Classes(ids, atomic, load, projectName, names);
      r.Fail? ==> (
        && r.failure.kind == Adapter && |r.failure.subjects| == 2 && r.failure.subjects[0] == projectName
        && exists k :: k in ids && r.failure.subjects[1] == NameOf(names, k)
             && (k !in atomic || |atomic[k].classBytes| == 0 || load(atomic[k].id, atomic[k].classBytes).Fail?))
  {
    var f := k => ClassOf(k, atomic, load, projectName, names);
    if Tabulate(ids, f).Ok? {
      TabulateOkValues(ids, f);
    } else {
      TabulateFail(ids, f);
    }
  }

  /** The loop over the valid nodes that fills nodeId2Class. */
  method LoadClasses(ids: seq<string>, atomic: map<string, Node>, load: (string, seq<int>) -> Result<Behaviour>,
                     projectName: string, names: map<string, string>)
    returns (r: Result<map<string, Behaviour>>)
    requires forall k :: k in atomic ==> atomic[k].id == k
    ensures r == Classes(ids, atomic, load, projectName, names)
  {
    ghost var f := k => ClassOf(k, atomic, load, projectName, names);
    var classes: map<string, Behaviour> := map[];
    for i := 0 to |ids|
      invariant Tabulate(ids[..i], f) == Ok(classes)
    {
      var id := ids[i];
      TabulateStep(ids, f, i, classes);
      if id !in atomic {
        TabulateFailSticks(ids, f, i + 1);
        return Fail(Failure(Adapter, NodeMissing, [projectName, NameOf(names, id)]));
      }
      var node := atomic[id];
      assert node.id == id;
      if |node.classBytes| == 0 {
        TabulateFailSticks(ids, f, i + 1);
        return Fail(Failure(Adapter, EmptyTask, [projectName, NameOf(names, id)]));
      }
      var c := load(node.id, node.classBytes);
      if c.Fail? {
        TabulateFailSticks(ids, f, i + 1);
        return Fail(Failure(Adapter, ClassLoadFailed, [projectName, NameOf(names, id)]));
      }
      classes := classes[node.id := c.value];
    }
    assert ids[..|ids|] == ids;
    return Ok(classes);
  }

  // ---------------------------------------------------------------------------
  // Circuit breakers

  /** The http section of an output port's properties: the settings of the
      node's circuit breaker. */
  datatype HttpProp = HttpProp(
    slidingWindowSize: int,
    minimumNumberOfCalls: int,
    failureRateThreshold: int,
    keepOpenStateInSeconds: int,
    permittedNumberOfCallsInHalfOpenState: int)

  /** The settings getCircuitBreakerConfig receives: the four counts as
      given and the open-state time in milliseconds.  The loader computes it
      and hands it to nothing: the registry call takes only the node id. */
  datatype BreakerConfig = BreakerConfig(
    slidingWindowSize: int,
    minimumNumberOfCalls: int,
    failureRateThreshold: int,
    waitDurationInOpenStateMs: int,
    permittedNumberOfCallsInHalfOpenState: int)

  function BreakerConfigOf(h: HttpProp): BreakerConfig
  {
    BreakerConfig(h.slidingWindowSize, h.minimumNumberOfCalls, h.failureRateThreshold,
                  h.keepOpenStateInSeconds * 1000, h.permittedNumberOfCallsInHalfOpenState)
  }

  /** For settings the editor accepted, the open state lasts between 30
      seconds and 30 minutes, given in milliseconds, and the counts keep
      their bounds. */
  lemma BreakerConfigBounds(h: HttpProp)
    requires PortProps.BreakerBounds(h.slidingWindowSize, h.minimumNumberOfCalls, h.failureRateThreshold,
                                     h.keepOpenStateInSeconds, h.permittedNumberOfCallsInHalfOpenState)
    ensures var c := BreakerConfigOf(h);
      && 30000 <= c.waitDurationInOpenStateMs <= 1800000
      && c.waitDurationInOpenStateMs == 1000 * h.keepOpenStateInSeconds
      && 1 <= c.slidingWindowSize <= 100 && 1 <= c.minimumNumberOfCalls <= 50
      && 1 <= c.failureRateThreshold <= 100 && 1 <= c.permittedNumberOfCallsInHalfOpenState <= 100
  {
  }

  /** What getCircuitBreakerMap does for one node, given its output ports:
      only an HTTP node gets a breaker; a node without output ports, with
      empty or blank properties or without an http section is skipped; more
      than one output port is an adapter error naming the project and the
      node. `parse` stands for the JSON parse of the properties (None: the
      result has no http section). The registry hands out the breaker
      registered under the node id. */
  function BreakerFor(id: string, node: Node, outPorts: seq<Port>, parse: string -> Result<Option<HttpProp>>,
                      projectName: string, names: map<string, string>): Result<Option<Breaker>>
  {
    if node.taskType != Http || |outPorts| == 0 then Ok(None)
    else if |outPorts| != 1 then Fail(Failure(Adapter, BadPortCount, [projectName, NameOf(names, id)]))
    else match outPorts[0].props
      case PropsNull => Ok(None)
      case PropsObject(_, _) => Fail(Failure(TypeErr, PropsNotText, [id]))
      case PropsText(t) =>
        if IsBlank(t) then Ok(None)
        else match parse(t)
          case Fail(e) => Fail(e)
          case Ok(None) => Ok(None)
          case Ok(Some(_)) => Ok(Some(Breaker(id)))
  }

  /** A node gets a breaker only for an http section under the single
      output port of an HTTP node. */
  predicate Configured(id: string, node: Node, outPorts: seq<Port>, parse: string -> Result<Option<HttpProp>>)
  {
    && node.taskType == Http && |outPorts| == 1 && outPorts[0].props.PropsText?
    && !IsBlank(outPorts[0].props.text) && parse(outPorts[0].props.text).Ok?
    && parse(outPorts[0].props.text).value.Some?
  }

  /** nodeId2CircuitBreaker: the nodes taken in the table's order; the
      first node that fails ends the build. */
  function Breakers(keys: seq<string>, nodes: map<string, Node>, ports: seq<Port>,
                    parse: string -> Result<Option<HttpProp>>, projectName: string,
                    names: map<string, string>): Result<map<string, Breaker>>
    requires forall k :: k in keys ==> k in nodes
    decreases |keys|
  {
    if |keys| == 0 then Ok(map[])
    else
      var id := keys[|keys| - 1];
      match Breakers(keys[..|keys| - 1], nodes, ports, parse, projectName, names)
      case Fail(e) => Fail(e)
      case Ok(m) =>
        match BreakerFor(id, nodes[id], OutPortsOf(ports, id), parse, projectName, names)
        case Fail(e) => Fail(e)
        case Ok(None) => Ok(m)
        case Ok(Some(b)) => Ok(m[id := b])
  }

  /** A table that passes: every node passed, and it holds the breaker of
      each node that got one and nothing for the others. */
  lemma {:induction false} BreakersOk(keys: seq<string>, nodes: map<string, Node>, ports: seq<Port>,
                                      parse: string -> Result<Option<HttpProp>>, projectName: string,
                                      names: map<string, string>)
    requires forall k :: k in keys ==> k in nodes
    requires Breakers(keys, nodes, ports, parse, projectName, names).Ok?
    ensures var m := Breakers(keys, nodes, ports, parse, projectName, names).value;
      forall k :: k in keys ==>
        BreakerFor(k, nodes[k], OutPortsOf(ports, k), parse, projectName, names)
        == (if k in m then Ok(Some(m[k])) else Ok(None))
    ensures var m := Breakers(keys, nodes, ports, parse, projectName, names).value;
      forall k :: k in m ==> k in keys
    decreases |keys|
  {
    if |keys| > 0 {
      var init := keys[..|keys| - 1];
      var id := keys[|keys| - 1];
      BreakersOk(init, nodes, ports, parse, projectName, names);
      assert keys == init + [id];
    }
  }

  /** A failing table fails with the failure of one of its nodes. */
  lemma {:induction false} BreakersFail(keys: seq<string>, nodes: map<string, Node>, ports: seq<Port>,
                                        parse: string -> Result<Option<HttpProp>>, projectName: string,
                                        names: map<string, string>)
    requires forall k :: k in keys ==> k in nodes
    requires Breakers(keys, nodes, ports, parse, projectName, names).Fail?
    ensures var e := Breakers(keys, nodes, ports, parse, projectName, names).failure;
      exists k :: k in keys && BreakerFor(k, nodes[k], OutPortsOf(ports, k), parse, projectName, names) == Fail(e)
    decreases |keys|
  {
    var init := keys[..|keys| - 1];
    var id := keys[|keys| - 1];
    if Breakers(init, nodes, ports, parse, projectName, names).Fail? {
      BreakersFail(init, nodes, ports, parse, projectName, names);
      var e := Breakers(init, nodes, ports, parse, projectName, names).failure;
      var k :| k in init && BreakerFor(k, nodes[k], OutPortsOf(ports, k), parse, projectName, names) == Fail(e);
      assert k in keys;
    } else {
      assert id in keys;
    }
  }

  /** The breaker table holds exactly the configured nodes, each with the
      breaker registered under its id; a failure is the failure of one of
      the nodes. */
  lemma BreakersSpec(keys: seq<string>, nodes: map<string, Node>, ports: seq<Port>,
                     parse: string -> Result<Option<HttpProp>>, projectName: string,
                     names: map<string, string>)
    requires forall k :: k in keys ==> k in nodes
    ensures var r := Breakers(keys, nodes, ports, parse, projectName, names);
      r.Ok? ==> forall k :: k in r.value <==> k in keys && Configured(k, nodes[k], OutPortsOf(ports, k), parse)
    ensures var r := Breakers(keys, nodes, ports, parse, projectName, names);
      r.Ok? ==> forall k :: k in r.value ==> r.value[k] == Breaker(k)
    ensures var r := Breakers(keys, nodes, ports, parse, projectName, names);
      r.Fail? ==> exists k :: k in keys && BreakerFor(k, nodes[k], OutPortsOf(ports, k), parse, projectName, names) == Fail(r.failure)
  {
    if Breakers(keys, nodes, ports, parse, projectName, names).Ok? {
      BreakersOk(keys, nodes, ports, parse, projectName, names);
    } else {
      BreakersFail(keys, nodes, ports, parse, projectName, names);
    }
  }

  /** A node that is not HTTP never fails and gets no breaker; an HTTP node
      with more than one output port fails with the port-count error; any
      other failure comes from a single output port whose properties are not
      text, or whose text does not parse. */
  lemma BreakerForFailures(id: string, node: Node, outPorts: seq<Port>, parse: string -> Result<Option<HttpProp>>,
                           projectName: string, names: map<string, string>)
    ensures node.taskType != Http ==> BreakerFor(id, node, outPorts, parse, projectName, names) == Ok(None)
    ensures node.taskType == Http && |outPorts| > 1 ==>
      BreakerFor(id, node, outPorts, parse, projectName, names) == Fail(Failure(Adapter, BadPortCount, [projectName, NameOf(names, id)]))
    ensures var r := BreakerFor(id, node, outPorts, parse, projectName, names);
      r.Fail? && |outPorts| <= 1 ==> (
        && node.taskType == Http && |outPorts| == 1
        && (|| outPorts[0].props.PropsObject?
            || (outPorts[0].props.PropsText? && parse(outPorts[0].props.text) == Fail(r.failure))))
  {
  }

  /** Once a prefix of the nodes fails, the whole table fails the same way. */
  lemma {:induction false} BreakersFailSticks(keys: seq<string>, nodes: map<string, Node>, ports: seq<Port>,
                                              parse: string -> Result<Option<HttpProp>>, projectName: string,
                                              names: map<string, string>, k: nat)
    requires forall x :: x in keys ==> x in nodes
    requires k <= |keys| && Breakers(keys[..k], nodes, ports, parse, projectName, names).Fail?
    ensures Breakers(keys, nodes, ports, parse, projectName, names) == Breakers(keys[..k], nodes, ports, parse, projectName, names)
    decreases |keys| - k
  {
    if k < |keys| {
      assert keys[..k + 1][..k] == keys[..k];
      BreakersFailSticks(keys, nodes, ports, parse, projectName, names, k + 1);
    } else {
      assert keys[..k] == keys;
    }
  }

  /** One more node of the table: its breaker is added, its skip leaves the
      table as it is, or its failure ends the table. */
  lemma BreakersStep(keys: seq<string>, nodes: map<string, Node>, ports: seq<Port>,
                     parse: string -> Result<Option<HttpProp>>, projectName: string,
                     names: map<string, string>, i: nat, m: map<string, Breaker>)
    requires forall x :: x in keys ==> x in nodes
    requires i < |keys| && Breakers(keys[..i], nodes, ports, parse, projectName, names) == Ok(m)
    ensures var b := BreakerFor(keys[i], nodes[keys[i]], OutPortsOf(ports, keys[i]), parse, projectName, names);
      Breakers(keys[..i + 1], nodes, ports, parse, projectName, names)
      == match b
         case Fail(e) => Fail(e)
         case Ok(None) => Ok(m)
         case Ok(Some(x)) => Ok(m[keys[i] := x])
  {
    assert keys[..i + 1][..i] == keys[..i];
  }

  /** The body of the loop of getCircuitBreakerMap for one node. */
  method NodeBreaker(id: string, node: Node, outPorts: seq<Port>, parse: string -> Result<Option<HttpProp>>,
                     projectName: string, names: map<string, string>)
    returns (b: Result<Option<Breaker>>)
    ensures b == BreakerFor(id, node, outPorts, parse, projectName, names)
  {
    if node.taskType != Http || |outPorts| == 0 {
      return Ok(None);
    }
    if |outPorts| != 1 {
      return Fail(Failure(Adapter, BadPortCount, [projectName, NameOf(names, id)]));
    }
    match outPorts[0].props {
      case PropsNull =>
        return Ok(None);
      case PropsObject(_, _) =>
        return Fail(Failure(TypeErr, PropsNotText, [id]));
      case PropsText(t) =>
        if IsBlank(t) {
          return Ok(None);
        }
        var prop := parse(t);
        if prop.Fail? {
          return Fail(prop.failure);
        }
        if prop.value.None? {
          return Ok(None);
        }
        return Ok(Some(Breaker(id)));
    }
  }

  /** getCircuitBreakerMap: the output ports grouped by node, then one pass
      over nodeId2node in its order. */
  method GetCircuitBreakerMap(table: OMap<Node>, ports: seq<Port>, parse: string -> Result<Option<HttpProp>>,
                              projectName: string, names: map<string, string>)
    returns (r: Result<map<string, Breaker>>)
    requires table.Valid()
    ensures r == Breakers(table.keys, table.vals, ports, parse, projectName, names)
  {
    var outs := BuildGroups(OutputsOf(ports), PortNodeKey);
    var m: map<string, Breaker> := map[];
    for i := 0 to |table.keys|
      invariant Breakers(table.keys[..i], table.vals, ports, parse, projectName, names) == Ok(m)
    {
      var id := table.keys[i];
      var b := NodeBreaker(id, table.vals[id], Lookup(outs, id), parse, projectName, names);
      BreakersStep(table.keys, table.vals, ports, parse, projectName, names, i, m);
      if b.Fail? {
        BreakersFailSticks(table.keys, table.vals, ports, parse, projectName, names, i + 1);
        return Fail(b.failure);
      }
      if b.value.Some? {
        m := m[id := b.value.value];
      }
    }
    assert table.keys[..|table.keys|] == table.keys;
    return Ok(m);
  }

  // ---------------------------------------------------------------------------
  // The parse of the port properties as written

  const UndefinedParser := "cannot read properties of undefined (reading 'parseObject')"

  /** The parse getCircuitBreakerMap performs as written: `this.jacksonUtil`
      is neither declared nor injected in the service, so reading its
      parseObject throws a type error whatever the text. */
  function ParseAsWritten(text: string): (r: Result<Option<HttpProp>>)
    ensures r.Fail? && r.failure.kind == TypeErr
  {
    Fail(Failure(TypeErr, UndefinedParser, []))
  }

  /** As written, a project with one HTTP node whose single output port carries
      a non-blank configuration cannot be compiled: the breaker table fails
      with the type error. */
  lemma ConfiguredHttpNodeThrowsAsWritten(n: Node, p: Port, projectName: string, names: map<string, string>)
    requires n.taskType == Http && p.portType == OutputPort && p.nodeId == n.id
    requires p.props.PropsText? && !IsBlank(p.props.text)
    ensures Breakers([n.id], map[n.id := n], [p], ParseAsWritten, projectName, names)
      == Fail(Failure(TypeErr, UndefinedParser, []))
  {
    SinglePortGroup(p);
    assert BreakerFor(n.id, n, [p], ParseAsWritten, projectName, names) == Fail(Failure(TypeErr, UndefinedParser, []));
    assert [n.id][..0] == [];
  }

  /** With a parser that finds the http section, the same project gets the
      breaker of its HTTP node. */
  lemma ConfiguredHttpNodeGetsBreaker(n: Node, p: Port, parse: string -> Result<Option<HttpProp>>, h: HttpProp,
                                      projectName: string, names: map<string, string>)
    requires n.taskType == Http && p.portType == OutputPort && p.nodeId == n.id
    requires p.props.PropsText? && !IsBlank(p.props.text) && parse(p.props.text) == Ok(Some(h))
    ensures Breakers([n.id], map[n.id := n], [p], parse, projectName, names) == Ok(map[n.id := Breaker(n.id)])
  {
    SinglePortGroup(p);
    assert BreakerFor(n.id, n, [p], parse, projectName, names) == Ok(Some(Breaker(n.id)));
    assert [n.id][..0] == [];
  }

  /** A lone output port is its node's only output port. */
  lemma SinglePortGroup(p: Port)
    requires p.portType == OutputPort
    ensures OutPortsOf([p], p.nodeId) == [p]
  {
    assert [p][..0] == [];
    assert OutputsOf([p]) == [p];
    assert Select([p], PortNodeKey, p.nodeId) == Select([], PortNodeKey, p.nodeId) + [p];
  }

  // ---------------------------------------------------------------------------
  // slowGetProjectAndUpdateCache

  /** The compiled project: the lookup tables, the flattened links (their
      data-consistency errors rethrown as adapter errors), then the rest of
      the build over them. */
  ghost function Compiled(db: DbProject, contextPath: string, g: Graph,
                          load: (string, seq<int>) -> Result<Behaviour>,
                          parse: string -> Result<Option<HttpProp>>): Result<VsExecFlow>
  {
    match ActualLinks(g.links, NodeTable(g.nodes).vals, PortIndex(g.ports), LinkBySourcePort(g.links), NameTable(g.nodes))
    case Fail(e) => Fail(Rethrow(e))
    case Ok(links) => CompiledFlow(db, contextPath, g, links, load, parse)
  }

  /** The build over the flattened links: the static flow over the atomic
      nodes and its id sets (data-consistency errors rethrown as adapter
      errors), the class of each valid node, and the breakers. */
  ghost function CompiledFlow(db: DbProject, contextPath: string, g: Graph, links: seq<Link>,
                              load: (string, seq<int>) -> Result<Behaviour>,
                              parse: string -> Result<Option<HttpProp>>): Result<VsExecFlow>
  {
    var names := NameTable(g.nodes);
    var table := NodeTable(g.nodes);
    var atomicNodes := ActualNodes(Some(g.nodes));
    var flow := MakeStFlow(links, atomicNodes);
    match NodeIdsOf(flow.edges, table.vals)
    case Fail(e) => Fail(Rethrow(e))
    case Ok(ids) =>
      match Classes(ids.all, NodeIndex(atomicNodes), load, db.name, names)
      case Fail(e) => Fail(e)
      case Ok(classes) =>
        NodeTableSpec(g.nodes);
        match Breakers(table.keys, table.vals, g.ports, parse, db.name, names)
        case Fail(e) => Fail(e)
        case Ok(breakers) =>
          Ok(VsExecFlow(db.id, db.name, db.compileVersion, contextPath, db.verb,
                        ExecFlow(flow, classes, names, table.vals, breakers)))
  }

  /** The build part of slowGetProjectAndUpdateCache, over the rows the
      three list queries return. */
  method Compile(db: DbProject, contextPath: string, g: Graph,
                 load: (string, seq<int>) -> Result<Behaviour>,
                 parse: string -> Result<Option<HttpProp>>)
    returns (r: Result<VsExecFlow>)
    ensures r == Compiled(db, contextPath, g, load, parse)
  {
    var names := BuildNameTable(g.nodes);
    var sourcePort2Link := BuildIndex(g.links, SourcePortKey);
    var portId2Port := BuildIndex(g.ports, PortKey);
    var table := BuildNodeTable(g.nodes);
    var links := GetActualLinks(Some(g.links), table.vals, portId2Port, sourcePort2Link, names);
    if links.Fail? {
      return Fail(Rethrow(links.failure));
    }
    r := CompileFlow(db, contextPath, g, names, table, links.value, load, parse);
  }

  /** The rest of the build, once the links are flattened. */
  method CompileFlow(db: DbProject, contextPath: string, g: Graph, names: map<string, string>, table: OMap<Node>,
                     links: seq<Link>, load: (string, seq<int>) -> Result<Behaviour>,
                     parse: string -> Result<Option<HttpProp>>)
    returns (r: Result<VsExecFlow>)
    requires names == NameTable(g.nodes) && table == NodeTable(g.nodes)
    ensures r == CompiledFlow(db, contextPath, g, links, load, parse)
  {
    var atomicNodes := ActualNodes(Some(g.nodes));
    var atomic := BuildIndex(atomicNodes, NodeKey);
    var flow := MakeStFlow(links, atomicNodes);
    var ids := GetNodeIdsMap(flow, table.vals);
    if ids.Fail? {
      return Fail(Rethrow(ids.failure));
    }
    NodeIndexKeys(atomicNodes);
    assert atomic == NodeIndex(atomicNodes);
    var classes := LoadClasses(ids.value.all, atomic, load, db.name, names);
    if classes.Fail? {
      return Fail(classes.failure);
    }
    NodeTableSpec(g.nodes);
    var breakers := GetCircuitBreakerMap(table, g.ports, parse, db.name, names);
    if breakers.Fail? {
      return Fail(breakers.failure);
    }
    return Ok(VsExecFlow(db.id, db.name, db.compileVersion, contextPath, db.verb,
                         ExecFlow(flow, classes.value, names, table.vals, breakers.value)));
  }

  /** A compiled project carries the row's id, name, version and method,
      and the node and name tables of its nodes. */
  lemma CompiledFields(db: DbProject, contextPath: string, g: Graph,
                       load: (string, seq<int>) -> Result<Behaviour>,
                       parse: string -> Result<Option<HttpProp>>)
    requires Compiled(db, contextPath, g, load, parse).Ok?
    ensures var f := Compiled(db, contextPath, g, load, parse).value;
      && f.id == db.id && f.name == db.name && f.compileVersion == db.compileVersion
      && f.contextPath == contextPath && f.verb == db.verb
      && f.exec.index == NodeIndex(g.nodes) && f.exec.names == NameTable(g.nodes)
  {
    NodeTableSpec(g.nodes);
  }

  /** Every valid node of a compiled flow has a class, so the runtime never
      finds a node without one. */
  lemma CompiledHasClasses(db: DbProject, contextPath: string, g: Graph,
                           load: (string, seq<int>) -> Result<Behaviour>,
                           parse: string -> Result<Option<HttpProp>>)
    requires Compiled(db, contextPath, g, load, parse).Ok?
    ensures var f := Compiled(db, contextPath, g, load, parse).value;
      && NodeIdsOf(f.exec.flow.edges, f.exec.index).Ok?
      && MissingClass(NodeIdsOf(f.exec.flow.edges, f.exec.index).value.all, f.exec.classes).None?
  {
    var names := NameTable(g.nodes);
    var table := NodeTable(g.nodes);
    var links := ActualLinks(g.links, table.vals, PortIndex(g.ports), LinkBySourcePort(g.links), names).value;
    var flow := MakeStFlow(links, ActualNodes(Some(g.nodes)));
    var ids := NodeIdsOf(flow.edges, table.vals).value;
    var atomic := NodeIndex(ActualNodes(Some(g.nodes)));
    ClassesSpec(ids.all, atomic, load, db.name, names);
    MissingClassSpec(ids.all, Classes(ids.all, atomic, load, db.name, names).value);
  }

  /** A compiled project has a breaker, registered under the node id,
      exactly for each configured HTTP node. */
  lemma CompiledBreakers(db: DbProject, contextPath: string, g: Graph,
                         load: (string, seq<int>) -> Result<Behaviour>,
                         parse: string -> Result<Option<HttpProp>>)
    requires Compiled(db, contextPath, g, load, parse).Ok?
    ensures var f := Compiled(db, contextPath, g, load, parse).value;
      forall k :: k in f.exec.breakers <==> k in f.exec.index && Configured(k, f.exec.index[k], OutPortsOf(g.ports, k), parse)
    ensures var f := Compiled(db, contextPath, g, load, parse).value;
      forall k :: k in f.exec.breakers ==> f.exec.breakers[k] == Breaker(k)
  {
    var table := NodeTable(g.nodes);
    NodeTableSpec(g.nodes);
    CompiledBreakerTable(db, contextPath, g, load, parse);
    BreakersSpec(table.keys, table.vals, g.ports, parse, db.name, NameTable(g.nodes));
  }

  /** The breakers and the index of a compiled project are the breaker table
      and the node table of its nodes. */
  lemma CompiledBreakerTable(db: DbProject, contextPath: string, g: Graph,
                             load: (string, seq<int>) -> Result<Behaviour>,
                             parse: string -> Result<Option<HttpProp>>)
    requires Compiled(db, contextPath, g, load, parse).Ok?
    ensures var table := NodeTable(g.nodes);
      && (forall k :: k in table.keys ==> k in table.vals)
      && Breakers(table.keys, table.vals, g.ports, parse, db.name, NameTable(g.nodes)).Ok?
      && Compiled(db, contextPath, g, load, parse).value.exec.breakers
         == Breakers(table.keys, table.vals, g.ports, parse, db.name, NameTable(g.nodes)).value
      && Compiled(db, contextPath, g, load, parse).value.exec.index == table.vals
  {
    var names := NameTable(g.nodes);
    var table := NodeTable(g.nodes);
    NodeTableSpec(g.nodes);
    var links := ActualLinks(g.links, table.vals, PortIndex(g.ports), LinkBySourcePort(g.links), names).value;
    assert Compiled(db, contextPath, g, load, parse) == CompiledFlow(db, contextPath, g, links, load, parse);
  }

  // ---------------------------------------------------------------------------
  // The cache

  /** The two caches of the service: the compiled projects and the time each
      was stored, both keyed by context path; the stamps keep insertion
      order, which decides what is evicted. */
  datatype Cache = Cache(flows: map<string, VsExecFlow>, stamps: OMap<int>)
  {
    /** The two caches hold the same context paths. */
    ghost predicate Valid()
    {
      stamps.Valid() && flows.Keys == stamps.vals.Keys
    }

    /** A valid cache within MAX_CACHE_SIZE entries, none under the empty
        context path. */
    ghost predicate Bounded()
    {
      Valid() && |flows| <= MaxCacheSize && "" !in flows
    }

    /** The entry of `contextPath` is served: a project and a stamp are
        stored (a zero stamp counts as none) and the stamp is less than a
        day old at `now`. */
    predicate Fresh(contextPath: string, now: int)
    {
      && contextPath in flows && stamps.Get(contextPath).Some? && stamps.Get(contextPath).value != 0
      && now - stamps.Get(contextPath).value < CacheTtl
    }

    /** The entry of `contextPath` has outlived its day and is dropped when
        looked up. */
    predicate Expired(contextPath: string, now: int)
    {
      && contextPath in flows && stamps.Get(contextPath).Some? && stamps.Get(contextPath).value != 0
      && now - stamps.Get(contextPath).value >= CacheTtl
    }

    /** The cache after a lookup at `now`: an expired entry is deleted from
        both caches. */
    function AfterLookup(contextPath: string, now: int): Cache
    {
      if Expired(contextPath, now) then Cache(flows - {contextPath}, stamps.Remove(contextPath)) else this
    }

    /** The cache is full and its oldest key, a non-empty string, goes before
        the next store. */
    predicate Evicting()
    {
      |flows| >= MaxCacheSize && |stamps.keys| > 0 && stamps.keys[0] != ""
    }

    /** The cache after storing `project` at `now`. */
    function Store(contextPath: string, project: VsExecFlow, now: int): Cache
    {
      var c := Evicted(this);
      Cache(c.flows[contextPath := project], c.stamps.Put(contextPath, now))
    }
  }

  /** A lookup keeps the cache valid and bounded, and it serves exactly the
      fresh entry. */
  lemma AfterLookupSpec(c: Cache, contextPath: string, now: int)
    ensures c.Valid() ==> c.AfterLookup(contextPath, now).Valid()
    ensures c.Bounded() ==> c.AfterLookup(contextPath, now).Bounded()
    ensures !c.AfterLookup(contextPath, now).Fresh(contextPath, now) || c.Fresh(contextPath, now)
    ensures c.Expired(contextPath, now) ==> contextPath !in c.AfterLookup(contextPath, now).flows
    ensures !c.Expired(contextPath, now) ==> c.AfterLookup(contextPath, now) == c
  {
    if c.Valid() {
      RemoveSpec(c.stamps, contextPath);
    }
  }

  /** Evicting the oldest key of a full valid cache leaves one entry fewer. */
  lemma EvictSpec(c: Cache)
    requires c.Valid() && c.Evicting()
    ensures var d := Cache(c.flows - {c.stamps.keys[0]}, c.stamps.Remove(c.stamps.keys[0]));
      d.Valid() && |d.flows| == |c.flows| - 1 && c.stamps.keys[0] !in d.flows
  {
    var k := c.stamps.keys[0];
    SizeIsCount(c.stamps);
    RemoveSpec(c.stamps, k);
    SizeIsCount(c.stamps.Remove(k));
  }

  /** A valid cache has as many projects as stamps. */
  lemma CardIsSize(c: Cache)
    requires c.Valid()
    ensures |c.flows| == c.stamps.Size()
  {
    SizeIsCount(c.stamps);
    assert |c.flows| == |c.flows.Keys|;
  }

  /** The cache after the eviction step of a store. */
  function Evicted(c: Cache): Cache
  {
    if c.Evicting() then Cache(c.flows - {c.stamps.keys[0]}, c.stamps.Remove(c.stamps.keys[0])) else c
  }

  /** Storing keeps the cache valid. */
  lemma StoreValid(c: Cache, contextPath: string, project: VsExecFlow, now: int)
    requires c.Valid()
    ensures Evicted(c).Valid()
    ensures c.Store(contextPath, project, now) == Cache(Evicted(c).flows[contextPath := project], Evicted(c).stamps.Put(contextPath, now))
    ensures c.Store(contextPath, project, now).Valid()
  {
    if c.Evicting() {
      EvictSpec(c);
    }
    PutSpec(Evicted(c).stamps, contextPath, now);
  }

  /** Storing keeps the cache within MAX_CACHE_SIZE entries, unless the path
      stored is the empty string. */
  lemma StoreBounded(c: Cache, contextPath: string, project: VsExecFlow, now: int)
    requires c.Bounded() && contextPath != ""
    ensures c.Store(contextPath, project, now).Bounded()
  {
    StoreValid(c, contextPath, project, now);
    var d := Evicted(c);
    var e := c.Store(contextPath, project, now);
    if c.Evicting() {
      EvictSpec(c);
    } else if |c.stamps.keys| > 0 {
      assert c.stamps.keys[0] in c.flows;
    }
    assert |d.flows| < MaxCacheSize && "" !in d.flows;
    CardIsSize(d);
    CardIsSize(e);
    PutSpec(d.stamps, contextPath, now);
  }

  /** After storing, the path holds the stored project and a stamp of `now`,
      and is served at `now` unless `now` is 0. */
  lemma StoreServes(c: Cache, contextPath: string, project: VsExecFlow, now: int)
    ensures c.Store(contextPath, project, now).flows[contextPath] == project
    ensures c.Store(contextPath, project, now).stamps.Get(contextPath) == Some(now)
    ensures now != 0 ==> c.Store(contextPath, project, now).Fresh(contextPath, now)
  {
  }

  /** Storing leaves every other path with its project, except the evicted
      oldest key. */
  lemma StoreKeepsOthers(c: Cache, contextPath: string, project: VsExecFlow, now: int, k: string)
    requires k != contextPath && k in c.flows && !(c.Evicting() && k == c.stamps.keys[0])
    ensures k in c.Store(contextPath, project, now).flows
    ensures c.Store(contextPath, project, now).flows[k] == c.flows[k]
  {
    if c.Evicting() {
      assert k in c.flows - {c.stamps.keys[0]};
    }
  }

  // ---------------------------------------------------------------------------
  // The service

  /** VsProjectService with its two caches (static Maps in the source, shared
      by every instance). `now` stands for Date.now(). */
  class VsProjectService {
    var flows: map<string, VsExecFlow>
    var stamps: OMap<int>

    function State(): Cache
      reads this
    {
      Cache(flows, stamps)
    }

    /** The cache of the service is within its bounds. */
    ghost predicate Bounded()
      reads this
    {
      State().Bounded()
    }

    constructor()
      ensures State() == Cache(map[], Empty<int>())
      ensures State().Bounded()
    {
      flows := map[];
      stamps := Empty<int>();
    }

    /** getCachedProject: the fresh entry, or nothing; an expired entry is
        deleted from both caches. */
    method GetCachedProject(contextPath: string, now: int) returns (r: Option<VsExecFlow>)
      modifies this
      ensures r == if old(State()).Fresh(contextPath, now) then Some(old(flows)[contextPath]) else None
      ensures State() == old(State()).AfterLookup(contextPath, now)
    {
      var timestamp := stamps.Get(contextPath);
      if contextPath in flows && timestamp.Some? && timestamp.value != 0 {
        if now - timestamp.value < CacheTtl {
          return Some(flows[contextPath]);
        }
        flows := flows - {contextPath};
        stamps := stamps.Remove(contextPath);
      }
      return None;
    }

    /** setCachedProject: a full cache first loses its oldest key, then the
        project and its stamp are stored; a path already cached keeps its
        place in the eviction order. */
    method SetCachedProject(contextPath: string, project: VsExecFlow, now: int)
      modifies this
      ensures State() == old(State()).Store(contextPath, project, now)
    {
      if |flows| >= MaxCacheSize {
        var oldest := if |stamps.keys| > 0 then Some(stamps.keys[0]) else None;
        if oldest.Some? && oldest.value != "" {
          flows := flows - {oldest.value};
          stamps := stamps.Remove(oldest.value);
        }
      }
      flows := flows[contextPath := project];
      stamps := stamps.Put(contextPath, now);
    }
  
    /** slowGetProjectAndUpdateCache: compile the project from its graph and,
        when that succeeds, store it. */
    method SlowGetProjectAndUpdateCache(db: DbProject, contextPath: string, g: Graph, now: int,
                                        load: (string, seq<int>) -> Result<Behaviour>,
                                        parse: string -> Result<Option<HttpProp>>)
      returns (r: Result<VsExecFlow>)
      modifies this
      ensures r == Compiled(db, contextPath, g, load, parse)
      ensures r.Ok? ==> State() == old(State()).Store(contextPath, r.value, now)
      ensures r.Fail? ==> State() == old(State())
    {
      r := Compile(db, contextPath, g, load, parse);
      if r.Ok? {
        SetCachedProject(contextPath, r.value, now);
      }
    }

    /** getProjectFlow: the project row of the path (`db`, None when there is
        none) must exist and be online, or an adapter error names the path and
        the cache is left alone; a fresh cached entry of the row's version is
        served; otherwise the project is compiled from its graph `g` and, when
        that succeeds, stored. */
    method GetProjectFlow(contextPath: string, db: Option<DbProject>, g: Graph, now: int,
                          load: (string, seq<int>) -> Result<Behaviour>,
                          parse: string -> Result<Option<HttpProp>>)
      returns (r: Result<VsExecFlow>)
      modifies this
      ensures db.None? ==> r == Fail(Failure(Adapter, ProjectNotFound, [contextPath])) && State() == old(State())
      ensures db.Some? && db.value.state == Offline ==>
        r == Fail(Failure(Adapter, ProjectOffline, [contextPath])) && State() == old(State())
      ensures (&& db.Some? && db.value.state == Online && old(State()).Fresh(contextPath, now)
               && old(flows)[contextPath].compileVersion == db.value.compileVersion) ==>
        r == Ok(old(flows)[contextPath]) && State() == old(State())
      ensures (&& db.Some? && db.value.state == Online
               && !(old(State()).Fresh(contextPath, now) && old(flows)[contextPath].compileVersion == db.value.compileVersion)) ==>
        && r == Compiled(db.value, contextPath, g, load, parse)
        && State() == (if r.Ok? then old(State()).AfterLookup(contextPath, now).Store(contextPath, r.value, now)
                       else old(State()).AfterLookup(contextPath, now))
      ensures old(State()).Bounded() && contextPath != "" ==> State().Bounded()
    {
      if db.None? {
        return Fail(Failure(Adapter, ProjectNotFound, [contextPath]));
      }
      var project := db.value;
      if project.state == Offline {
        return Fail(Failure(Adapter, ProjectOffline, [contextPath]));
      }
      ghost var before := State();
      var cached := GetCachedProject(contextPath, now);
      AfterLookupSpec(before, contextPath, now);
      ghost var looked := State();
      if cached.None? || cached.value.compileVersion != project.compileVersion {
        r := SlowGetProjectAndUpdateCache(project, contextPath, g, now, load, parse);
        if r.Ok? && before.Bounded() && contextPath != "" {
          StoreBounded(looked, contextPath, r.value, now);
        }
      } else {
        r := Ok(cached.value);
      }
    }
  }
}
