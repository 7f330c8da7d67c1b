// makeNodeTaskScript: the compiler pass that turns every valid node of a flow
// into the source text of its task class, after the per-node checks.

module NodeScripts {
  import opened Wrappers
  import opened Enums
  import opened Strs
  import opened Templates
  import opened ScriptTemplates
  import opened FlowModel
  import opened Topology
  import opened ScriptGen

  const ScriptUnreadable := "cannot read the script property"
  const PortCountNotOne := "a single-output node needs exactly one port"
  const PortNotConfigured := "a port of the node has no script"
  const PortWithoutLink := "a port of the node has no outgoing link"
  const NoOutputPort := "the node needs at least one output port"
  const EndPortCount := "an end node cannot have several output ports"
  const EmptyTask := "the node task is empty"
  const NotAtomic := "node not found among the atomic nodes"
  const NotEndType := "the flow must end with an END node"

  /** `${nodeId2NodeName.get(id)}` without a fallback: a missing name prints
      as `undefined`. */
  function NameOrUndefined(names: map<string, string>, id: string): string
  {
    if id in names then names[id] else "undefined"
  }

  // ---------------------------------------------------------------------------
  // Reading a port's properties

  /** getScriptFromPort.  The vs utility reads `properties.script` from the
      stored value; the lib utility first runs JSON.parse on it.  Reading a key
      of `null`, or a text that does not parse, fails; a value without the key
      gives the empty script. */
  function ScriptFromPort(v: Variant, p: Port): Result<string>
  {
    var bad := Fail(Failure(DataConsistency, ScriptUnreadable, [p.id]));
    match v
    case VsUtil =>
      (match p.props
       case PropsNull => bad
       case PropsText(_) => Ok("")
       case PropsObject(s, _) => Ok(s.GetOr("")))
    case LibUtil(parse) =>
      (match p.props
       case PropsText(t) =>
         (match parse(t)
          case ParseError => bad
          case JsonNull => bad
          case JsonObject(s, _) => Ok(s.GetOr(""))
          case JsonOther => Ok(""))
       case _ => bad)   // JSON.parse(null) is null; an object prints as `[object Object]`
  }

  /** getAdditionDefineFromVsPort: the same read of `additionDefine`, with
      every failure turned into the empty text. */
  function AdditionDefine(v: Variant, p: Port): string
  {
    match v
    case VsUtil =>
      (match p.props
       case PropsObject(_, a) => a.GetOr("")
       case _ => "")
    case LibUtil(parse) =>
      (match p.props
       case PropsText(t) =>
         (match parse(t)
          case JsonObject(_, a) => a.GetOr("")
          case _ => "")
       case _ => "")
  }

  /** The script read fails exactly on an unreadable value, naming the port:
      for the vs utility a `null` value, for the lib utility anything but a
      text that parses to a non-null value. */
  lemma ScriptFromPortSpec(v: Variant, p: Port)
    ensures ScriptFromPort(v, p).Fail? ==> ScriptFromPort(v, p).failure == Failure(DataConsistency, ScriptUnreadable, [p.id])
    ensures v.VsUtil? ==> (ScriptFromPort(v, p).Fail? <==> p.props.PropsNull?)
    ensures v.VsUtil? && p.props.PropsObject? ==> ScriptFromPort(v, p) == Ok(p.props.script.GetOr(""))
    ensures v.LibUtil? ==>
      (ScriptFromPort(v, p).Ok? <==>
         (p.props.PropsText? && !v.parse(p.props.text).ParseError? && !v.parse(p.props.text).JsonNull?))
    ensures v.LibUtil? && p.props.PropsText? && v.parse(p.props.text).JsonObject? ==>
      ScriptFromPort(v, p) == Ok(v.parse(p.props.text).script.GetOr(""))
  {
  }

  /** The extra members never make the compiler throw: an unreadable value
      gives the empty text. */
  lemma AdditionDefineSpec(v: Variant, p: Port)
    ensures ScriptFromPort(v, p).Fail? ==> AdditionDefine(v, p) == ""
    ensures v.VsUtil? && p.props.PropsObject? ==> AdditionDefine(v, p) == p.props.additionDefine.GetOr("")
    ensures v.LibUtil? && p.props.PropsText? && v.parse(p.props.text).JsonObject? ==>
      AdditionDefine(v, p) == v.parse(p.props.text).additionDefine.GetOr("")
  {
  }

  // ---------------------------------------------------------------------------
  // The per-node checks; each either passes or throws

  /** validateNodeInAtomicNodes. */
  function ValidateNodeInAtomicNodes(id: string, index: map<string, Node>): (r: Outcome)
    ensures r.Pass? <==> id in index
    ensures r.Throw? ==> r.failure == Failure(DataConsistency, NotAtomic, [id])
  {
    if id in index then Pass else Throw(Failure(DataConsistency, NotAtomic, [id]))
  }

  /** validateEndNodeType: a node without outgoing links must be an END node. */
  function ValidateEndNodeType(id: string, index: map<string, Node>, names: map<string, string>): (r: Outcome)
    ensures r.Pass? <==> id in index && index[id].taskType == End
    ensures r.Throw? ==> r.failure == Failure(DataConsistency, NotEndType, [NameOf(names, id)])
  {
    if id !in index || index[id].taskType != End then Throw(Failure(DataConsistency, NotEndType, [NameOf(names, id)]))
    else Pass
  }

  /** validateEndNodePorts: an END node has exactly one port. */
  function ValidateEndNodePorts(id: string, ports: seq<Port>, names: map<string, string>): (r: Outcome)
    ensures r.Pass? <==> |ports| == 1
    ensures r.Throw? ==> r.failure == Failure(DataConsistency, EndPortCount, [NameOf(names, id)])
  {
    if |ports| != 1 then Throw(Failure(DataConsistency, EndPortCount, [NameOf(names, id)])) else Pass
  }

  /** validateNonEndNodePorts: any other node has a port. */
  function ValidateNonEndNodePorts(id: string, ports: seq<Port>, names: map<string, string>): (r: Outcome)
    ensures r.Pass? <==> |ports| > 0
    ensures r.Throw? ==> r.failure == Failure(DataConsistency, NoOutputPort, [NameOrUndefined(names, id)])
  {
    if |ports| == 0 then Throw(Failure(DataConsistency, NoOutputPort, [NameOrUndefined(names, id)])) else Pass
  }

  /** validateNodeTaskScript: the generated text is not blank. */
  function ValidateNodeTaskScript(id: string, script: string, names: map<string, string>): (r: Outcome)
    ensures r.Pass? <==> !IsBlank(script)
    ensures r.Throw? ==> r.failure == Failure(DataConsistency, EmptyTask, [NameOf(names, id)])
  {
    TrimEmptyIffBlank(script);
    if script == "" || Trim(script) == "" then Throw(Failure(DataConsistency, EmptyTask, [NameOf(names, id)]))
    else Pass
  }

  // ---------------------------------------------------------------------------
  // Single-output nodes

  /** makeNodeTaskScripWhenSingleOutput: the port's script in the
      single-output call template, and its extra members. */
  function SingleOutput(v: Variant, id: string, ports: seq<Port>, names: map<string, string>): Result<string>
  {
    if |ports| != 1 then Fail(Failure(DataConsistency, PortCountNotOne, [NameOf(names, id)]))
    else
      match ScriptFromPort(v, ports[0])
      case Fail(f) => Fail(f)
      case Ok(script) =>
        Ok(GenerateSingleOutput(id, Fill(SingleOutputSegs(v), [script]), AdditionDefine(v, ports[0])))
  }

  // ---------------------------------------------------------------------------
  // Multi-output nodes

  /** What one port contributes to a multi-output class: its boolean method,
      its guarded call and its extra members. */
  datatype Piece = Piece(boolMethod: string, call: string, addition: string)

  /** One iteration of the port loop of makeNodeTaskScriptWhenMultiOutput: the
      script is read first, then it must be non-empty, then the port must
      start a link. */
  function PortPiece(v: Variant, id: string, p: Port, sp2l: map<string, Link>, names: map<string, string>): Result<Piece>
  {
    match ScriptFromPort(v, p)
    case Fail(f) => Fail(f)
    case Ok(script) =>
      if script == "" then Fail(Failure(DataConsistency, PortNotConfigured, [NameOf(names, id)]))
      else if p.id !in sp2l then Fail(Failure(DataConsistency, PortWithoutLink, [NameOf(names, id)]))
      else Ok(Piece(GeneratePortBool(p.id, script), GeneratePortCall(v, p.id, sp2l[p.id].targetId), AdditionDefine(v, p)))
  }

  /** The port loop: the pieces of all ports in order, or the failure of the
      first port that fails. */
  function PortPieces(v: Variant, id: string, ports: seq<Port>, sp2l: map<string, Link>, names: map<string, string>): Result<seq<Piece>>
  {
    MapAll(ports, p => PortPiece(v, id, p, sp2l, names))
  }

  function Bools(pcs: seq<Piece>): seq<string> { seq(|pcs|, i requires 0 <= i < |pcs| => pcs[i].boolMethod) }

  function Calls(pcs: seq<Piece>): seq<string> { seq(|pcs|, i requires 0 <= i < |pcs| => pcs[i].call) }

  function Additions(pcs: seq<Piece>): seq<string> { seq(|pcs|, i requires 0 <= i < |pcs| => pcs[i].addition) }

  /** One `%s` per port, one per line. */
  function LineHoles(n: nat): string { Join(Repeat("%s", n), "\n") }

  /** The default input-to-output copy, then one `%s` per port. */
  function CallHoles(n: nat): string { Join([DefaultCallBody()] + Repeat("%s", n), "\n") }

  /** makeNodeTaskScriptWhenMultiOutput: `startPortId2Link` indexes the node's
      links by source port (a later link wins); the boolean methods, the call
      clauses and the extra members are each filled into a hole line per port. */
  function MultiOutput(v: Variant, id: string, ports: seq<Port>, links: seq<Link>, names: map<string, string>): Result<string>
  {
    match PortPieces(v, id, ports, LinkBySourcePort(links), names)
    case Fail(f) => Fail(f)
    case Ok(pcs) =>
      var n := |ports|;
      Ok(GenerateMultiOutput(id, FormatSpec(CallHoles(n), Calls(pcs)),
                             FormatSpec(LineHoles(n), Bools(pcs)),
                             FormatSpec(LineHoles(n), Additions(pcs))))
  }

  // ---------------------------------------------------------------------------
  // One node

  /** The body of the loop of makeNodeTaskScript for one valid node id, given
      its outgoing links and its ports. */
  function NodeScript(v: Variant, id: string, outLinks: seq<Link>, ports: seq<Port>,
                      index: map<string, Node>, names: map<string, string>): Result<string>
  {
    match ValidateNodeInAtomicNodes(id, index)
    case Throw(f) => Fail(f)
    case Pass =>
      var script :=
        if |outLinks| == 0 then
          match ValidateEndNodeType(id, index, names)
          case Throw(f) => Fail(f)
          case Pass =>
            match ValidateEndNodePorts(id, ports, names)
            case Throw(f) => Fail(f)
            case Pass => SingleOutput(v, id, ports, names)
        else
          match ValidateNonEndNodePorts(id, ports, names)
          case Throw(f) => Fail(f)
          case Pass =>
            if index[id].taskType != Route then SingleOutput(v, id, ports, names)
            else MultiOutput(v, id, ports, outLinks, names);
      match script
      case Fail(f) => Fail(f)
      case Ok(s) =>
        match ValidateNodeTaskScript(id, s, names)
        case Throw(f) => Fail(f)
        case Pass => Ok(s)
  }

  // ---------------------------------------------------------------------------
  // All nodes

  /** The script of one valid id: its outgoing links and its ports, selected
      in order from all links and ports. */
  function ScriptOf(v: Variant, links: seq<Link>, ports: seq<Port>, index: map<string, Node>,
                    names: map<string, string>): string -> Result<string>
  {
    k => NodeScript(v, k, Select(links, SourceIdKey, k), Select(ports, PortNodeKey, k), index, names)
  }

  lemma ScriptOfIs(v: Variant, links: seq<Link>, ports: seq<Port>, index: map<string, Node>,
                   names: map<string, string>, k: string)
    ensures ScriptOf(v, links, ports, index, names)(k)
      == NodeScript(v, k, Select(links, SourceIdKey, k), Select(ports, PortNodeKey, k), index, names)
  {
  }

  /** makeNodeTaskScript: the valid ids come from getNodeIdsMap over the links
      and the atomic node table; each gets the script of NodeScript. */
  function NodeTaskScripts(v: Variant, links: seq<Link>, ports: seq<Port>, nodes: seq<Node>,
                           names: map<string, string>): (r: Result<map<string, string>>)
  {
    var index := NodeIndex(nodes);
    match NodeIdsOf(MakeStFlow(links, nodes).edges, index)
    case Fail(f) => Fail(f)
    case Ok(ids) => Tabulate(ids.all, ScriptOf(v, links, ports, index, names))
  }

  // ---------------------------------------------------------------------------
  // What the compiler promises

  /** A port contributes a piece exactly when its script reads, is non-empty
      and the port starts a link; the two later checks name the node. */
  lemma PortPieceSpec(v: Variant, id: string, p: Port, sp2l: map<string, Link>, names: map<string, string>)
    ensures PortPiece(v, id, p, sp2l, names).Ok? <==>
      ScriptFromPort(v, p).Ok? && ScriptFromPort(v, p).value != "" && p.id in sp2l
    ensures PortPiece(v, id, p, sp2l, names).Ok? ==>
      PortPiece(v, id, p, sp2l, names).value == Piece(GeneratePortBool(p.id, ScriptFromPort(v, p).value),
                                                      GeneratePortCall(v, p.id, sp2l[p.id].targetId),
                                                      AdditionDefine(v, p))
    ensures ScriptFromPort(v, p).Fail? ==> PortPiece(v, id, p, sp2l, names) == Fail(ScriptFromPort(v, p).failure)
    ensures ScriptFromPort(v, p).Ok? && ScriptFromPort(v, p).value == "" ==>
      PortPiece(v, id, p, sp2l, names) == Fail(Failure(DataConsistency, PortNotConfigured, [NameOf(names, id)]))
    ensures ScriptFromPort(v, p).Ok? && ScriptFromPort(v, p).value != "" && p.id !in sp2l ==>
      PortPiece(v, id, p, sp2l, names) == Fail(Failure(DataConsistency, PortWithoutLink, [NameOf(names, id)]))
  {
  }

  /** A passing port loop holds one piece per port, in port order, each
      activating the target of the link its port starts. */
  lemma PortPiecesInOrder(v: Variant, id: string, ports: seq<Port>, sp2l: map<string, Link>, names: map<string, string>)
    requires PortPieces(v, id, ports, sp2l, names).Ok?
    ensures |PortPieces(v, id, ports, sp2l, names).value| == |ports|
    ensures forall i :: 0 <= i < |ports| ==>
      ScriptFromPort(v, ports[i]).Ok? && ScriptFromPort(v, ports[i]).value != "" && ports[i].id in sp2l &&
      PortPieces(v, id, ports, sp2l, names).value[i]
        == Piece(GeneratePortBool(ports[i].id, ScriptFromPort(v, ports[i]).value),
                 GeneratePortCall(v, ports[i].id, sp2l[ports[i].id].targetId),
                 AdditionDefine(v, ports[i]))
  {
    var piece := p => PortPiece(v, id, p, sp2l, names);
    MapAllOkValues(ports, piece);
    forall i | 0 <= i < |ports|
      ensures ScriptFromPort(v, ports[i]).Ok? && ScriptFromPort(v, ports[i]).value != "" && ports[i].id in sp2l
    {
      PortPieceSpec(v, id, ports[i], sp2l, names);
    }
  }

  /** A failing port loop fails at a port all of whose predecessors pass. */
  lemma PortPiecesFirstFailure(v: Variant, id: string, ports: seq<Port>, sp2l: map<string, Link>, names: map<string, string>)
    requires PortPieces(v, id, ports, sp2l, names).Fail?
    ensures exists i :: (0 <= i < |ports|
                         && PortPiece(v, id, ports[i], sp2l, names) == Fail(PortPieces(v, id, ports, sp2l, names).failure)
                         && forall j :: 0 <= j < i ==> PortPiece(v, id, ports[j], sp2l, names).Ok?)
  {
    MapAllFail(ports, p => PortPiece(v, id, p, sp2l, names));
  }

  /** The reason of a failing port loop. */
  lemma PortPiecesFailureReason(v: Variant, id: string, ports: seq<Port>, sp2l: map<string, Link>, names: map<string, string>)
    requires PortPieces(v, id, ports, sp2l, names).Fail?
    ensures PortPieces(v, id, ports, sp2l, names).failure.reason in {ScriptUnreadable, PortNotConfigured, PortWithoutLink}
  {
    PortPiecesFirstFailure(v, id, ports, sp2l, names);
    var i :| 0 <= i < |ports| && PortPiece(v, id, ports[i], sp2l, names) == Fail(PortPieces(v, id, ports, sp2l, names).failure);
    PortPieceSpec(v, id, ports[i], sp2l, names);
    ScriptFromPortSpec(v, ports[i]);
  }

  /** A single-output node: exactly one port, whose unreadable script fails the
      node; otherwise a class text is generated. */
  lemma SingleOutputCases(v: Variant, id: string, ports: seq<Port>, names: map<string, string>)
    ensures |ports| != 1 ==> SingleOutput(v, id, ports, names) == Fail(Failure(DataConsistency, PortCountNotOne, [NameOf(names, id)]))
    ensures |ports| == 1 && ScriptFromPort(v, ports[0]).Fail? ==>
      SingleOutput(v, id, ports, names) == Fail(ScriptFromPort(v, ports[0]).failure)
    ensures |ports| == 1 && ScriptFromPort(v, ports[0]).Ok? ==> SingleOutput(v, id, ports, names).Ok?
    ensures SingleOutput(v, id, ports, names).Ok? ==> HasClassHead(SingleOutput(v, id, ports, names).value)
  {
    if |ports| == 1 && ScriptFromPort(v, ports[0]).Ok? {
      var script := ScriptFromPort(v, ports[0]).value;
      SingleOutputHead(id, Fill(SingleOutputSegs(v), [script]), AdditionDefine(v, ports[0]));
    }
  }

  /** With plain inputs, the class text is the class template with the class
      name, the port's script inside the single-output call template, an empty
      second call body and the port's extra members. */
  lemma SingleOutputShape(v: Variant, id: string, ports: seq<Port>, names: map<string, string>)
    requires |ports| == 1 && ScriptFromPort(v, ports[0]).Ok? && Plain(id) && Plain(ScriptFromPort(v, ports[0]).value)
    requires Plain(AdditionDefine(v, ports[0]))
    ensures SingleOutput(v, id, ports, names)
      == Ok(Interleave(FlowNodesSegs(), [ClassName(id), Interleave(SingleOutputSegs(v), [ScriptFromPort(v, ports[0]).value]),
                                         "", AdditionDefine(v, ports[0])]))
  {
    var script := ScriptFromPort(v, ports[0]).value;
    var addition := AdditionDefine(v, ports[0]);
    var call := Fill(SingleOutputSegs(v), [script]);
    SingleOutputVsPlain();
    SingleOutputLibPlain();
    FillFacts(SingleOutputSegs(v), [script]);
    SingleOutputText(id, call, addition);
  }

  /** A passing multi-output node always yields a class text. */
  lemma MultiOutputHasHead(v: Variant, id: string, ports: seq<Port>, links: seq<Link>, names: map<string, string>)
    requires MultiOutput(v, id, ports, links, names).Ok?
    ensures HasClassHead(MultiOutput(v, id, ports, links, names).value)
  {
    var pcs := PortPieces(v, id, ports, LinkBySourcePort(links), names).value;
    var n := |ports|;
    MultiOutputHead(id, FormatSpec(CallHoles(n), Calls(pcs)), FormatSpec(LineHoles(n), Bools(pcs)),
                    FormatSpec(LineHoles(n), Additions(pcs)));
  }

  /** A multi-output node fails as its port loop does; when it passes with
      plain pieces, the call section is the default copy followed by one
      guarded call per port, and the port methods and extra members are one
      per line, all in port order. */
  lemma MultiOutputShape(v: Variant, id: string, ports: seq<Port>, links: seq<Link>, names: map<string, string>,
                         pcs: seq<Piece>)
    requires PortPieces(v, id, ports, LinkBySourcePort(links), names) == Ok(pcs)
    requires |ports| > 0 && AllPlain(Bools(pcs)) && AllPlain(Calls(pcs)) && AllPlain(Additions(pcs))
    ensures MultiOutput(v, id, ports, links, names)
      == Ok(GenerateMultiOutput(id, DefaultCallBody() + "\n" + Join(Calls(pcs), "\n"),
                                Join(Bools(pcs), "\n"), Join(Additions(pcs), "\n")))
  {
    MapAllOkValues(ports, p => PortPiece(v, id, p, LinkBySourcePort(links), names));
    var n := |ports|;
    PlainIsClean(Bools(pcs));
    PlainIsClean(Calls(pcs));
    PlainIsClean(Additions(pcs));
    FillLineHoles(n, Bools(pcs));
    FillLineHoles(n, Additions(pcs));
    DefaultCallBodyPlain();
    FillLineHolesAfter(DefaultCallBody(), n, Calls(pcs));
  }

  /** The failure of a multi-output node is that of its port loop. */
  lemma MultiOutputFailure(v: Variant, id: string, ports: seq<Port>, links: seq<Link>, names: map<string, string>)
    ensures MultiOutput(v, id, ports, links, names).Fail? <==> PortPieces(v, id, ports, LinkBySourcePort(links), names).Fail?
    ensures MultiOutput(v, id, ports, links, names).Fail? ==>
      MultiOutput(v, id, ports, links, names).failure == PortPieces(v, id, ports, LinkBySourcePort(links), names).failure
  {
  }

  /** The checks that reject a node, in order: an unknown id first; a node
      without outgoing links must be an END node with one port; any other node
      needs a port. */
  lemma NodeScriptRejects(v: Variant, id: string, outLinks: seq<Link>, ports: seq<Port>,
                          index: map<string, Node>, names: map<string, string>)
    ensures id !in index ==> NodeScript(v, id, outLinks, ports, index, names) == Fail(Failure(DataConsistency, NotAtomic, [id]))
    ensures id in index && |outLinks| == 0 && index[id].taskType != End ==>
      NodeScript(v, id, outLinks, ports, index, names) == Fail(Failure(DataConsistency, NotEndType, [NameOf(names, id)]))
    ensures id in index && |outLinks| == 0 && index[id].taskType == End && |ports| != 1 ==>
      NodeScript(v, id, outLinks, ports, index, names) == Fail(Failure(DataConsistency, EndPortCount, [NameOf(names, id)]))
    ensures id in index && |outLinks| > 0 && |ports| == 0 ==>
      NodeScript(v, id, outLinks, ports, index, names) == Fail(Failure(DataConsistency, NoOutputPort, [NameOrUndefined(names, id)]))
  {
  }

  /** A node that passes the checks is compiled as a single-output class when
      it has no outgoing link or is not a ROUTE node, and as a multi-output
      class otherwise, even with a single port.  The final blank check never
      decides anything, since every class text begins with the class head. */
  lemma NodeScriptGenerates(v: Variant, id: string, outLinks: seq<Link>, ports: seq<Port>,
                            index: map<string, Node>, names: map<string, string>)
    ensures id in index && |outLinks| == 0 && index[id].taskType == End && |ports| == 1 ==>
      NodeScript(v, id, outLinks, ports, index, names) == SingleOutput(v, id, ports, names)
    ensures id in index && |outLinks| > 0 && |ports| > 0 && index[id].taskType != Route ==>
      NodeScript(v, id, outLinks, ports, index, names) == SingleOutput(v, id, ports, names)
    ensures id in index && |outLinks| > 0 && |ports| > 0 && index[id].taskType == Route ==>
      NodeScript(v, id, outLinks, ports, index, names) == MultiOutput(v, id, ports, outLinks, names)
  {
    SingleOutputCases(v, id, ports, names);
    if SingleOutput(v, id, ports, names).Ok? {
      GeneratedNotBlank(SingleOutput(v, id, ports, names).value);
    }
    if MultiOutput(v, id, ports, outLinks, names).Ok? {
      MultiOutputHasHead(v, id, ports, outLinks, names);
      GeneratedNotBlank(MultiOutput(v, id, ports, outLinks, names).value);
    }
  }

  /** A compiled node is a known node with a non-blank class text, and its
      ports are as its links demand. */
  lemma NodeScriptOk(v: Variant, id: string, outLinks: seq<Link>, ports: seq<Port>,
                     index: map<string, Node>, names: map<string, string>)
    requires NodeScript(v, id, outLinks, ports, index, names).Ok?
    ensures id in index && !IsBlank(NodeScript(v, id, outLinks, ports, index, names).value)
    ensures |outLinks| == 0 ==> index[id].taskType == End && |ports| == 1
    ensures |outLinks| > 0 ==> |ports| > 0
  {
  }

  /** The reasons a node can fail for; the empty-task check is never among
      them. */
  lemma NodeScriptFailureReason(v: Variant, id: string, outLinks: seq<Link>, ports: seq<Port>,
                                index: map<string, Node>, names: map<string, string>)
    requires NodeScript(v, id, outLinks, ports, index, names).Fail?
    ensures NodeScript(v, id, outLinks, ports, index, names).failure.reason in
      {NotAtomic, NotEndType, EndPortCount, NoOutputPort, PortCountNotOne, ScriptUnreadable, PortNotConfigured, PortWithoutLink}
    ensures NodeScript(v, id, outLinks, ports, index, names).failure.reason != EmptyTask
  {
    NodeScriptRejects(v, id, outLinks, ports, index, names);
    NodeScriptGenerates(v, id, outLinks, ports, index, names);
    SingleOutputCases(v, id, ports, names);
    if |ports| == 1 {
      ScriptFromPortSpec(v, ports[0]);
    }
    if MultiOutput(v, id, ports, outLinks, names).Fail? {
      PortPiecesFailureReason(v, id, ports, LinkBySourcePort(outLinks), names);
    }
  }

  /** The compiled table has a script for exactly the nodes at either end of a
      link. */
  lemma NodeTaskScriptsKeys(v: Variant, links: seq<Link>, ports: seq<Port>, nodes: seq<Node>, names: map<string, string>)
    requires NodeTaskScripts(v, links, ports, nodes, names).Ok?
    ensures forall k :: k in NodeTaskScripts(v, links, ports, nodes, names).value <==> IsEndpoint(MakeStFlow(links, nodes).edges, k)
  {
    var index := NodeIndex(nodes);
    var edges := MakeStFlow(links, nodes).edges;
    var ids := NodeIdsOf(edges, index).value;
    TabulateOkValues(ids.all, ScriptOf(v, links, ports, index, names));
    NodeIdsAllEndpoints(edges, index);
    var m := NodeTaskScripts(v, links, ports, nodes, names).value;
    assert m.Keys == set k | k in ids.all;
  }

  /** Each script of the table is that of NodeScript for the node's own links
      and ports. */
  lemma NodeTaskScriptsValues(v: Variant, links: seq<Link>, ports: seq<Port>, nodes: seq<Node>, names: map<string, string>)
    requires NodeTaskScripts(v, links, ports, nodes, names).Ok?
    ensures forall k :: k in NodeTaskScripts(v, links, ports, nodes, names).value ==>
      NodeScript(v, k, Select(links, SourceIdKey, k), Select(ports, PortNodeKey, k), NodeIndex(nodes), names)
        == Ok(NodeTaskScripts(v, links, ports, nodes, names).value[k])
  {
    var index := NodeIndex(nodes);
    var edges := MakeStFlow(links, nodes).edges;
    var ids := NodeIdsOf(edges, index).value;
    var f := ScriptOf(v, links, ports, index, names);
    TabulateOkValues(ids.all, f);
    var m := NodeTaskScripts(v, links, ports, nodes, names).value;
    forall k | k in m
      ensures NodeScript(v, k, Select(links, SourceIdKey, k), Select(ports, PortNodeKey, k), index, names) == Ok(m[k])
    {
      ScriptOfIs(v, links, ports, index, names, k);
    }
  }

  /** Each node of the table is a known node with a non-blank script. */
  lemma NodeTaskScriptsNotBlank(v: Variant, links: seq<Link>, ports: seq<Port>, nodes: seq<Node>, names: map<string, string>)
    requires NodeTaskScripts(v, links, ports, nodes, names).Ok?
    ensures forall k :: k in NodeTaskScripts(v, links, ports, nodes, names).value ==>
      k in NodeIndex(nodes) && !IsBlank(NodeTaskScripts(v, links, ports, nodes, names).value[k])
  {
    var m := NodeTaskScripts(v, links, ports, nodes, names).value;
    NodeTaskScriptsValues(v, links, ports, nodes, names);
    forall k | k in m
      ensures k in NodeIndex(nodes) && !IsBlank(m[k])
    {
      NodeScriptOk(v, k, Select(links, SourceIdKey, k), Select(ports, PortNodeKey, k), NodeIndex(nodes), names);
    }
  }

  /** A failing compilation fails in getNodeIdsMap, or at one of the ids it
      returns. */
  lemma NodeTaskScriptsFailure(v: Variant, links: seq<Link>, ports: seq<Port>, nodes: seq<Node>, names: map<string, string>)
    requires NodeTaskScripts(v, links, ports, nodes, names).Fail?
    ensures NodeIdsOf(MakeStFlow(links, nodes).edges, NodeIndex(nodes)).Fail? ||
      exists k :: IsEndpoint(MakeStFlow(links, nodes).edges, k) &&
        NodeScript(v, k, Select(links, SourceIdKey, k), Select(ports, PortNodeKey, k), NodeIndex(nodes), names)
          == Fail(NodeTaskScripts(v, links, ports, nodes, names).failure)
  {
    var index := NodeIndex(nodes);
    var edges := MakeStFlow(links, nodes).edges;
    if NodeIdsOf(edges, index).Ok? {
      var ids := NodeIdsOf(edges, index).value;
      var f := ScriptOf(v, links, ports, index, names);
      TabulateFail(ids.all, f);
      NodeIdsAllEndpoints(edges, index);
      var k :| k in ids.all && f(k) == Fail(NodeTaskScripts(v, links, ports, nodes, names).failure);
      ScriptOfIs(v, links, ports, index, names, k);
      assert IsEndpoint(edges, k);
    }
  }

  // ---------------------------------------------------------------------------
  // The compiler pass as the source runs it

  /** The first loop of makeNodeTaskScriptWhenMultiOutput: one `%s` line per
      port in each of the three holders, the call holder starting with the
      default copy. */
  method MakeHoleTemplates(portSize: nat) returns (boolExpTemplate: string, callExpTemplate: string, additionDefineExpTemplate: string)
    ensures boolExpTemplate == LineHoles(portSize) && additionDefineExpTemplate == LineHoles(portSize)
    ensures callExpTemplate == CallHoles(portSize)
  {
    var boolExpHolder: seq<string> := [];
    var callExpHolder: seq<string> := [DefaultCallBody()];
    var additionDefineExpHolder: seq<string> := [];
    var i := 0;
    while i < portSize
      invariant 0 <= i <= portSize
      invariant boolExpHolder == Repeat("%s", i) && additionDefineExpHolder == Repeat("%s", i)
      invariant callExpHolder == [DefaultCallBody()] + Repeat("%s", i)
    {
      boolExpHolder := boolExpHolder + ["%s"];
      callExpHolder := callExpHolder + ["%s"];
      additionDefineExpHolder := additionDefineExpHolder + ["%s"];
      i := i + 1;
    }
    boolExpTemplate := Join(boolExpHolder, "\n");
    callExpTemplate := Join(callExpHolder, "\n");
    additionDefineExpTemplate := Join(additionDefineExpHolder, "\n");
  }

  /** The port loop of makeNodeTaskScriptWhenMultiOutput: the piece of each
      port holds its entries of the three script arrays, in port order; the
      loop throws at the first bad port. */
  method MakePortPieces(v: Variant, id: string, ports: seq<Port>, startPortId2Link: map<string, Link>,
                        names: map<string, string>) returns (r: Result<seq<Piece>>)
    ensures r == PortPieces(v, id, ports, startPortId2Link, names)
  {
    ghost var piece := p => PortPiece(v, id, p, startPortId2Link, names);
    var pcs: seq<Piece> := [];
    var i := 0;
    while i < |ports|
      invariant 0 <= i <= |ports|
      invariant MapAll(ports[..i], piece) == Ok(pcs)
    {
      var curPort := ports[i];
      MapAllStep(ports, piece, i, pcs);
      var propScript := ScriptFromPort(v, curPort);
      if propScript.Fail? {
        MapAllFailSticks(ports, piece, i + 1);
        return Fail(propScript.failure);
      }
      if propScript.value == "" {
        MapAllFailSticks(ports, piece, i + 1);
        return Fail(Failure(DataConsistency, PortNotConfigured, [NameOf(names, id)]));
      }
      if curPort.id !in startPortId2Link {
        MapAllFailSticks(ports, piece, i + 1);
        return Fail(Failure(DataConsistency, PortWithoutLink, [NameOf(names, id)]));
      }
      var curLink := startPortId2Link[curPort.id];
      var pc := Piece(GeneratePortBool(curPort.id, propScript.value),
                      GeneratePortCall(v, curPort.id, curLink.targetId),
                      AdditionDefine(v, curPort));
      assert piece(curPort) == Ok(pc);
      pcs := pcs + [pc];
      i := i + 1;
    }
    assert ports[..i] == ports;
    r := Ok(pcs);
  }

  /** makeNodeTaskScriptWhenMultiOutput. */
  method MakeMultiOutput(v: Variant, id: string, ports: seq<Port>, links: seq<Link>, names: map<string, string>)
    returns (r: Result<string>)
    ensures r == MultiOutput(v, id, ports, links, names)
  {
    var boolExpTemplate, callExpTemplate, additionDefineExpTemplate := MakeHoleTemplates(|ports|);
    var startPortId2Link := BuildIndex(links, SourcePortKey);
    var pieces := MakePortPieces(v, id, ports, startPortId2Link, names);
    if pieces.Fail? {
      return Fail(pieces.failure);
    }
    var boolExp := FormatTemplate(boolExpTemplate, Bools(pieces.value));
    var callExp := FormatTemplate(callExpTemplate, Calls(pieces.value));
    var additionDefineExp := FormatTemplate(additionDefineExpTemplate, Additions(pieces.value));
    r := Ok(GenerateMultiOutput(id, callExp, boolExp, additionDefineExp));
  }

  /** The body of the loop of makeNodeTaskScript: the checks in source order,
      then single- or multi-output generation, then the blank check. */
  method MakeNodeScript(v: Variant, id: string, curLinks: seq<Link>, curPorts: seq<Port>,
                        index: map<string, Node>, names: map<string, string>) returns (r: Result<string>)
    ensures r == NodeScript(v, id, curLinks, curPorts, index, names)
  {
    var atomic := ValidateNodeInAtomicNodes(id, index);
    if atomic.Throw? {
      return Fail(atomic.failure);
    }
    var script: Result<string>;
    if |curLinks| == 0 {
      var endType := ValidateEndNodeType(id, index, names);
      if endType.Throw? {
        return Fail(endType.failure);
      }
      var endPorts := ValidateEndNodePorts(id, curPorts, names);
      if endPorts.Throw? {
        return Fail(endPorts.failure);
      }
      script := SingleOutput(v, id, curPorts, names);
    } else {
      var nonEnd := ValidateNonEndNodePorts(id, curPorts, names);
      if nonEnd.Throw? {
        return Fail(nonEnd.failure);
      }
      if index[id].taskType != Route {
        script := SingleOutput(v, id, curPorts, names);
      } else {
        script := MakeMultiOutput(v, id, curPorts, curLinks, names);
      }
    }
    if script.Fail? {
      return Fail(script.failure);
    }
    var notBlank := ValidateNodeTaskScript(id, script.value, names);
    if notBlank.Throw? {
      return Fail(notBlank.failure);
    }
    r := Ok(script.value);
  }

  /** The loop of makeNodeTaskScript over the valid ids; `f` is the script of
      an id for the links and ports the two tables hold for it. */
  method MakeNodeScripts(v: Variant, waitCompileNodeIds: seq<string>,
                         nodeId2StartLinks: map<string, seq<Link>>, nodeId2OutputPorts: map<string, seq<Port>>,
                         nodeId2node: map<string, Node>, names: map<string, string>,
                         ghost f: string -> Result<string>)
    returns (r: Result<map<string, string>>)
    requires forall k :: f(k) == NodeScript(v, k, Lookup(nodeId2StartLinks, k), Lookup(nodeId2OutputPorts, k), nodeId2node, names)
    ensures r == Tabulate(waitCompileNodeIds, f)
  {
    var nodeId2Script: map<string, string> := map[];
    var i := 0;
    while i < |waitCompileNodeIds|
      invariant 0 <= i <= |waitCompileNodeIds|
      invariant Tabulate(waitCompileNodeIds[..i], f) == Ok(nodeId2Script)
    {
      var curNodeId := waitCompileNodeIds[i];
      TabulateStep(waitCompileNodeIds, f, i, nodeId2Script);
      var curLinks := Lookup(nodeId2StartLinks, curNodeId);
      var curOutputPorts := Lookup(nodeId2OutputPorts, curNodeId);
      var curNodeTaskScript := MakeNodeScript(v, curNodeId, curLinks, curOutputPorts, nodeId2node, names);
      if curNodeTaskScript.Fail? {
        TabulateFailSticks(waitCompileNodeIds, f, i + 1);
        return Fail(curNodeTaskScript.failure);
      }
      nodeId2Script := nodeId2Script[curNodeId := curNodeTaskScript.value];
      i := i + 1;
    }
    assert waitCompileNodeIds[..i] == waitCompileNodeIds;
    r := Ok(nodeId2Script);
  }

  /** With tables that group the links and ports by node, the script of an id
      read through the tables is its script over the whole lists. */
  lemma ScriptOfGroups(v: Variant, links: seq<Link>, ports: seq<Port>,
                       nodeId2StartLinks: map<string, seq<Link>>, nodeId2OutputPorts: map<string, seq<Port>>,
                       index: map<string, Node>, names: map<string, string>)
    requires forall k :: Lookup(nodeId2StartLinks, k) == Select(links, SourceIdKey, k)
    requires forall k :: Lookup(nodeId2OutputPorts, k) == Select(ports, PortNodeKey, k)
    ensures forall k ::
      ScriptOf(v, links, ports, index, names)(k)
        == NodeScript(v, k, Lookup(nodeId2StartLinks, k), Lookup(nodeId2OutputPorts, k), index, names)
  {
    forall k ensures ScriptOf(v, links, ports, index, names)(k)
      == NodeScript(v, k, Lookup(nodeId2StartLinks, k), Lookup(nodeId2OutputPorts, k), index, names)
    {
      ScriptOfIs(v, links, ports, index, names, k);
    }
  }

  /** makeNodeTaskScript: the three lookup tables, the valid ids of
      getNodeIdsMap, then one script per id in order. */
  method MakeNodeTaskScript(v: Variant, links: seq<Link>, ports: seq<Port>, nodes: seq<Node>,
                            names: map<string, string>) returns (r: Result<map<string, string>>)
    ensures r == NodeTaskScripts(v, links, ports, nodes, names)
  {
    var nodeId2StartLinks := BuildGroups(links, SourceIdKey);
    var nodeId2OutputPorts := BuildGroups(ports, PortNodeKey);
    var nodeId2node := BuildIndex(nodes, NodeKey);
    var flow := MakeStFlow(links, nodes);
    var nodeIdsMap := GetNodeIdsMap(flow, nodeId2node);
    if nodeIdsMap.Fail? {
      return Fail(nodeIdsMap.failure);
    }
    ScriptOfGroups(v, links, ports, nodeId2StartLinks, nodeId2OutputPorts, nodeId2node, names);
    r := MakeNodeScripts(v, nodeIdsMap.value.all, nodeId2StartLinks, nodeId2OutputPorts, nodeId2node, names,
                         ScriptOf(v, links, ports, nodeId2node, names));
  }
}
