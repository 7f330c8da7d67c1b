# graph-sys core, modelled in Dafny

graph-sys is a visual service-orchestration system. It has two parts:

- **vs-adapter**, the editor back end. Users build a project from nodes and links. A node has typed input and output ports; it can be a start node, an end node, an atomic node doing HTTP, routing or data conversion, or a composite node that holds a lower layer of nodes. Links join an output port to an input port.
- **vs-run**, the runtime.

Compiling a project goes through the flow compiler in `libs/utils/vs/flow-node.util.ts`. It checks the graph, flattens composite nodes away, and generates one task script per node from text templates. Each script is a TypeScript class extending `FlowNodeTask`; it is transpiled with `ts.transpile` (`libs/utils/vs/flow-node.util.ts:1723-1760`) and stored with the project. The Chinese comments "对应Java中的…" throughout the code mark the Java original each part was ported from; no Java runs.

The runtime loads a compiled project into a bounded, time-stamped cache. For each request, it rebuilds the flow of tasks and walks from the start node to an end node, following the child each task activates. The walk stops with an error after a fixed number of hops.

## What the model covers

The modules follow the source files:

- **Flow compiler**:
  - `Topology`: validators, edge flattening and the actual nodes and output ports.
  - `NodeScripts`, `Templates`, `ScriptTemplates`, `ScriptGen`: the generated task scripts and their template text.
  - `FlowModel`: the compiler's records.
- **Runtime tasks**:
  - `FlowTask`: `flow-node-task.ts`.
  - `RuntimeFlow`: building a runtime flow and walking it.
  - `ExecContext`: the per-request context and its timers.
- **Runtime service**:
  - `VsProject`: the project cache and loader.
  - `RunController`: the request controller, with its header handling and hop-limited walk.
  - `UserLog`: the node user-log queue.
- **Editor**:
  - `ProjectService`: add, compile, version bump and compile-record updates, over a value-level store (`AdapterStore`).
  - `NodeService`: node add, port ordering and layer queries.
  - `PortService`: port add and modify, and route and HTTP script generation.
  - `LinkService`: link create.
- **Shared libraries**:
  - `RouteEnum`: route operators and type checks.
  - `PortProps`: HTTP port properties and their validation.
  - `FieldTypes`: the field-type enums.
  - `TreeNodes`, `DataConvProps`: the mapping trees.
  - `HttpUtils`: URL building.
  - `ConnPool`: the pooled HTTP client.
  - `RequestHeaders`: request header handling.
- **Helpers**: `Enums`, `Wrappers`, `Strs`, `OrderedMaps`, `CheckUtils`.

Object state is modelled as classes. Examples are the flow-node tasks, the execution context, the project store service, the tree nodes and the HTTP request. Pure computations are functions.

**What enters as parameters:**
- The database becomes a value: `AdapterStore.Store`, tables held as sequences in insertion order.
- The clock, the TypeScript transpiler, the loading of a transpiled class (`new Function` in `getClass`) and the outbound HTTP answers are all parameters.

**Errors:**
- Failures are `Result`/`Outcome` values carrying a failure kind, a short English gloss of the message and the ids or names the message mentions.

**Where the code does not do what it evidently means to do.** Each case is a row of "## Findings", with a member for the code as written and a corrected member. The rest of the model uses the corrected member:
- **Version bump** (`apps/vs-adapter/src/project/project.service.ts:303-333`). The loop retries ten times and its comment calls a caught error a version conflict, but `updateMany` reports zero rows and does not throw on a miss, so a lost race counts as success. `ProjectService.Service.BumpVersion`, `StoreCompiled` and `ExecuteCompileTask` use the retrying `ProjectService.BumpFrom`.
- **Compile records** (`project.service.ts:459-466`). The loop walks `Object.entries` of the unawaited promise `compileNodeTaskScript` returns, so it records nothing. The same three members use `ProjectService.UpdateRecords`, which records each node's script and artifact.
- **Circuit breakers** (`apps/vs-run/src/vs-project/vs-project.service.ts:422`). The loader parses the port properties through `this.jacksonUtil`, which the service never declares, so it throws there. The loader in `VsProject` uses `VsProject.Breakers` over a working parser.
- **End nodes** (`apps/vs-adapter/src/port/port.service.ts:62-68`). The comment says an end node has only input ports, but the test compares the view type with the task type COMPOSITE_END. A second defect: `req.toVsPort()` at line 92 is called on a plain object, so every add throws. `PortService.Add` uses the intended end test `PortService.IsEndNode` and converts the request without that throw.
- **Link endpoints** (`apps/vs-adapter/src/link/link.service.ts:58`). `req.sourceId = node.id` assigns instead of comparing, so the start node is the last node read and `req.sourceId` is overwritten with its id. `LinkService.Add` and `LinkService.AddStep` use the intended pick `LinkService.PickOf`.
- **Port order** (`apps/vs-adapter/src/node/node.service.ts:257`). The ports are sorted by the order field of raw rows whose properties are still JSON text, so the store order stays. `NodeService.List`, `NodeService.RealsOf` and `NodeService.RouteDefinitionOf` use `NodeService.RawSortedPorts`, which sorts by the parsed order.

**Two hop limits.** The controller bounds its walk by its own `MAX_DEPTH = 256` (`apps/vs-run/src/vs-run.controller.ts:37`, `RunController.RunMaxDepth`). The compiler-side walker `processFlow` uses `FlowNodeUtil.MAX_DEPTH = 10000` (`libs/utils/vs/flow-node.util.ts:97`, `RuntimeFlow.MaxDepth`).

## Model

| member | source | states |
|---|---|---|
| Enums.CodesInjective | apps/vs-adapter/src/common/enums/node.enum.ts:1-14 | distinct task, view, port and method members have distinct string codes, so comparing codes compares members |
| Enums.ViewCodeNeverTaskCode | apps/vs-adapter/src/port/port.service.ts:65 | no view-type code equals a task-type code, so comparing a node's view type with COMPOSITE_END never holds |
| Strs.ReplaceFirstSpec | libs/utils/vs/flow-node.util.ts:1336-1342 | `replace` with a string pattern leaves the text unchanged without an occurrence, and otherwise splices the expanded replacement in at the first occurrence |
| Strs.TrimEmptyIffBlank | libs/utils/vs/flow-node.util.ts:1481-1491 | `trim()` yields the empty string exactly for text made only of white space |
| Topology.MakeStFlow | libs/utils/vs/flow-node.util.ts:759-774 | one (source, target) pair per link in link order, duplicates kept, and one id per node |
| Topology.AddNewSpec | libs/utils/vs/flow-node.util.ts:802-805 | adding ids to an insertion-ordered Set keeps what was there, adds exactly the new ids and never duplicates one |
| Topology.AllIdsSpec | libs/utils/vs/flow-node.util.ts:792-805 | the valid id set is duplicate-free and holds exactly the link endpoints; the start set is the link sources and the end set the link targets |
| Topology.StartSetMembers | libs/utils/vs/flow-node.util.ts:792-800 | the start id set is duplicate-free and holds exactly the link sources |
| Topology.EndSetMembers | libs/utils/vs/flow-node.util.ts:792-800 | the end id set is duplicate-free and holds exactly the link targets |
| Topology.StartCandidates | libs/utils/vs/flow-node.util.ts:841-864 | an id is a start candidate iff it is in the id list, is no link target and names a CONTEXT node |
| Topology.EndCandidates | libs/utils/vs/flow-node.util.ts:876-901 | an id is an end candidate iff it is in the id list, is no link source and names an END node |
| Topology.GetStartNodeId | libs/utils/vs/flow-node.util.ts:841-864 | succeeds iff there is exactly one start candidate and returns it; otherwise a DataConsistencyException |
| Topology.GetEndNodeIds | libs/utils/vs/flow-node.util.ts:876-901 | succeeds iff there is at least one end candidate and returns all of them in order; otherwise a DataConsistencyException |
| Topology.GetNodeIdsMap | libs/utils/vs/flow-node.util.ts:784-829 | the loop over the links computes the valid ids, then the start node (checked first), then the end nodes |
| Topology.NodeIdsAllEndpoints | libs/utils/vs/flow-node.util.ts:784-829 | the valid ids returned are exactly the link endpoints, so a node without links is excluded |
| Topology.StartNodeCharacterised | libs/utils/vs/flow-node.util.ts:841-864 | a start node is a link endpoint that is never a link target and is a CONTEXT node |
| Topology.EndNodesCharacterised | libs/utils/vs/flow-node.util.ts:876-901 | an end node is a link endpoint that is never a link source and is an END node |
| Topology.ActualLinksFailSticks | libs/utils/vs/flow-node.util.ts:997-1069 | the first link that throws decides the result; later links change nothing |
| Topology.ChasePort | libs/utils/vs/flow-node.util.ts:1024-1053 | the inner chase loop gives the result of the recursive chase from step 0 |
| Topology.FlattenLink | libs/utils/vs/flow-node.util.ts:1009-1066 | one iteration of getActualLinks: a link leaving a composite node is skipped, any other is re-targeted to the chase's end |
| Topology.GetActualLinks | libs/utils/vs/flow-node.util.ts:997-1069 | a null link list gives no links; otherwise the loop gives the link-by-link flattening, stopping at the first failure |
| Topology.ChaseSound | libs/utils/vs/flow-node.util.ts:1024-1053 | a chase that succeeds ends on an existing port of an existing ATOMIC node, and names that node |
| Topology.ChaseFailures | libs/utils/vs/flow-node.util.ts:1024-1053 | a chase fails only with an unknown port or node (Error), a composite port with no outgoing link (DataConsistencyException) or too many steps (Error) |
| Topology.ChaseLoopTooLarge | libs/utils/vs/flow-node.util.ts:1026-1030 | a composite port whose outgoing link leads back to itself throws "graph too large" once the 90 000-step bound is passed |
| Topology.ActualLinksSpec | libs/utils/vs/flow-node.util.ts:1009-1066 | the result keeps, in order, exactly the links not leaving a composite node, each with its id, sourceId and sourcePort, re-targeted to the node and port where its chase ends |
| Topology.ActualLinksAtomic | libs/utils/vs/flow-node.util.ts:1009-1066 | every returned link ends on an existing port of an ATOMIC node |
| Topology.ActualNodes | libs/utils/flow-node.util.ts:1477-1488 | a null list gives no nodes; otherwise exactly the ATOMIC nodes |
| Topology.AtomicNodes | libs/utils/flow-node.util.ts:1477-1488 | exactly the ATOMIC nodes of the list, and no more nodes than given |
| Topology.AtomicNodesOrder | libs/utils/flow-node.util.ts:1477-1488 | the filter distributes over concatenation, so it keeps the input order |
| Topology.ActualOutputPorts | libs/utils/flow-node.util.ts:896-931 | a null list gives no ports; otherwise it throws a DataConsistencyException iff some port's node is unknown |
| Topology.OutputPorts | libs/utils/flow-node.util.ts:896-931 | fails iff some port's node is unknown; every returned port is an OUTPUT port, and there are no more of them than given |
| Topology.OutputPortsFrom | libs/utils/flow-node.util.ts:896-931 | each returned port is an ATOMIC node's OUTPUT port, or an END node's INPUT port retyped as OUTPUT, keeping id, node and properties |
| Topology.OutputPortsAppend | libs/utils/flow-node.util.ts:906-928 | the loop over two lists of ports in a row fails at the first list's unknown node, else at the second's, and otherwise returns the first list's ports followed by the second's, in order |
| Topology.OutputPortsSnoc | libs/utils/flow-node.util.ts:906-928 | one more port ends the loop with the earlier failure, or fails naming its node when the node is unknown, or appends exactly what that port contributes after the earlier result |
| Topology.OutputPortsComplete | libs/utils/flow-node.util.ts:906-928 | when the loop passes every port's node is known, every OUTPUT port of an ATOMIC node is in the result, and every INPUT port of an END node is in it retyped as OUTPUT |
| FlowModel.IndexByDomain | libs/utils/vs/flow-node.util.ts:1107-1108 | the table built by `forEach(x => m.set(key(x), x))` has a key exactly for the keys of the elements |
| FlowModel.IndexByLastWins | libs/utils/vs/flow-node.util.ts:1258-1259 | a later element with the same key replaces an earlier one: the last element of a key is the one kept (so a port starting two links keeps the last link) |
| FlowModel.IndexByEntries | libs/utils/vs/flow-node.util.ts:1107-1108 | every entry of the table is an element of the list stored under its own key |
| FlowModel.SelectMembers | libs/utils/vs/flow-node.util.ts:1088-1104 | the links (ports) grouped under a node id are exactly those of the list with that source (owning) node, and no more than the list |
| FlowModel.BuildIndex | libs/utils/vs/flow-node.util.ts:1107-1108 | the `forEach` loop that fills the node table computes the index table of the list |
| FlowModel.GroupsStep | libs/utils/vs/flow-node.util.ts:1090-1095 | pushing an element onto its key's list extends the grouping of the prefix by that element |
| FlowModel.BuildGroups | libs/utils/vs/flow-node.util.ts:1089-1104 | the grouping loop leaves under every key exactly the elements with that key in list order, and never an empty list |
| NodeScripts.ScriptFromPortSpec | libs/utils/vs/flow-node.util.ts:1350-1358 | reading a port's script fails exactly on an unreadable properties value (null for the vs utility; anything but JSON text of a non-null value for the lib utility), naming the port; a value without the key gives the empty script |
| NodeScripts.AdditionDefineSpec | libs/utils/vs/flow-node.util.ts:1365-1374 | reading a port's extra members never throws: an unreadable value gives the empty text, otherwise the `additionDefine` key or "" |
| NodeScripts.ValidateNodeInAtomicNodes | libs/utils/vs/flow-node.util.ts:1498-1506 | passes exactly when the id is in the atomic node table, else a data-consistency error naming the id |
| NodeScripts.ValidateEndNodeType | libs/utils/vs/flow-node.util.ts:1514-1525 | passes exactly when the node is known and of type END, else an error naming the node |
| NodeScripts.ValidateEndNodePorts | libs/utils/vs/flow-node.util.ts:1463-1473 | passes exactly when there is one port, else an error naming the node |
| NodeScripts.ValidateNonEndNodePorts | libs/utils/vs/flow-node.util.ts:1445-1455 | passes exactly when there is a port, else an error whose name is printed without the `''` fallback |
| NodeScripts.ValidateNodeTaskScript | libs/utils/vs/flow-node.util.ts:1481-1491 | passes exactly when the generated text is not blank, else an error naming the node |
| NodeScripts.PortPieceSpec | libs/utils/vs/flow-node.util.ts:1265-1313 | a port contributes its boolean method, guarded call and extra members exactly when its script reads, is non-empty and the port starts a link; each failure, in that order, gives its own error |
| NodeScripts.PortPiecesInOrder | libs/utils/vs/flow-node.util.ts:1261-1313 | a passing port loop fills the three script arrays with one entry per port, in port order, each call activating the target of the link its port starts |
| NodeScripts.PortPiecesFirstFailure | libs/utils/vs/flow-node.util.ts:1265-1285 | a failing port loop throws at a port all of whose predecessors passed |
| NodeScripts.PortPiecesFailureReason | libs/utils/vs/flow-node.util.ts:1265-1285 | the port loop fails only for an unreadable script, an unconfigured port, or a port without an outgoing link |
| NodeScripts.SingleOutputCases | libs/utils/vs/flow-node.util.ts:1198-1223 | a single-output node fails unless it has exactly one port, fails as the script read fails, and otherwise yields a class text |
| NodeScripts.SingleOutputShape | libs/utils/vs/flow-node.util.ts:1198-1223 | the single-output class is the class template filled with the class name, the port's script in the single-output call template, an empty second body and the extra members |
| NodeScripts.MultiOutputHasHead | libs/utils/vs/flow-node.util.ts:1235-1328 | a passing multi-output node always yields a class text |
| NodeScripts.MultiOutputShape | libs/utils/vs/flow-node.util.ts:1242-1327 | the multi-output class holds the default copy followed by one guarded call per port, and the port methods and extra members one per line, all in port order |
| NodeScripts.MultiOutputFailure | libs/utils/vs/flow-node.util.ts:1258-1285 | a multi-output node fails exactly when its port loop fails, with the same error |
| NodeScripts.NodeScriptRejects | libs/utils/vs/flow-node.util.ts:1125-1154 | the checks reject in source order: an unknown id, a link-less node that is not END or has other than one port, a linked node without ports |
| NodeScripts.NodeScriptGenerates | libs/utils/vs/flow-node.util.ts:1128-1175 | a passing node is single-output when it has no outgoing link or is not ROUTE, and multi-output otherwise, even with one port |
| NodeScripts.NodeScriptOk | libs/utils/vs/flow-node.util.ts:1125-1183 | a compiled node is known, its text is not blank, and its ports are as its links demand |
| NodeScripts.NodeScriptFailureReason | libs/utils/vs/flow-node.util.ts:1177-1182 | the reasons a node can fail for; the blank-script check never fires, since every class text starts with the class head |
| NodeScripts.NodeTaskScriptsKeys | libs/utils/vs/flow-node.util.ts:1110-1118 | the table has a script for exactly the nodes at either end of a link |
| NodeScripts.NodeTaskScriptsValues | libs/utils/vs/flow-node.util.ts:1118-1184 | each script in the table is the one its node's own links and ports give |
| NodeScripts.NodeTaskScriptsNotBlank | libs/utils/vs/flow-node.util.ts:1118-1184 | every node in the table is a known atomic node with a non-blank script |
| NodeScripts.NodeTaskScriptsFailure | libs/utils/vs/flow-node.util.ts:1110-1184 | a failing compilation fails in getNodeIdsMap or at one of the ids it returns |
| NodeScripts.MakeHoleTemplates | libs/utils/vs/flow-node.util.ts:1242-1255 | the first loop makes one `%s` line per port in each holder, the call holder starting with the default copy |
| NodeScripts.MakePortPieces | libs/utils/vs/flow-node.util.ts:1261-1313 | the port loop computes the piece list of the specification, or the first port's failure |
| NodeScripts.MakeMultiOutput | libs/utils/vs/flow-node.util.ts:1235-1328 | makeNodeTaskScriptWhenMultiOutput computes the multi-output specification |
| NodeScripts.MakeNodeScript | libs/utils/vs/flow-node.util.ts:1121-1183 | the loop body computes the node-script specification |
| NodeScripts.MakeNodeScripts | libs/utils/vs/flow-node.util.ts:1118-1184 | the loop over the valid ids tabulates the script of each id, stopping at the first failure |
| NodeScripts.ScriptOfGroups | libs/utils/vs/flow-node.util.ts:1119-1122 | looking a node's links and ports up in the grouping tables gives the same script as selecting them from the whole lists |
| NodeScripts.MakeNodeTaskScript | libs/utils/vs/flow-node.util.ts:1080-1187 | makeNodeTaskScript computes the compiled-script table of the specification |
| Templates.FormatTemplate | libs/utils/vs/flow-node.util.ts:1336-1342 | formatTemplate's loop replaces the first `%s` by each argument in turn, left to right, and returns the template when there are no arguments |
| Templates.FillHoles | libs/utils/vs/flow-node.util.ts:1336-1342 | filling the holes of `%s`-joined segments with arguments free of `%` and `$` interleaves the arguments with the segments |
| Templates.FillLineHoles | libs/utils/vs/flow-node.util.ts:1242-1255 | `n` `%s` lines filled with `n` clean arguments give the arguments one per line |
| Templates.FillLineHolesAfter | libs/utils/vs/flow-node.util.ts:1243-1254 | the same behind a `%`-free first line (the default call body) |
| Templates.FormatBehindPrefix | libs/utils/vs/flow-node.util.ts:1336-1342 | filling behind a `%`-free prefix leaves the prefix untouched and fills the rest |
| Templates.FormatKeepsPrefix | libs/utils/vs/flow-node.util.ts:1336-1342 | the `%`-free text before the first hole survives every filling, whatever the arguments |
| Templates.CaptureByEarlierArgument | libs/utils/vs/flow-node.util.ts:1336-1342 | an argument that itself holds `%s` captures the next replacement, so the last hole stays unfilled |
| Templates.DollarPatternExpands | libs/utils/vs/flow-node.util.ts:1336-1342 | a `$'` in an argument is expanded by `replace` to the text after the hole |
| ScriptTemplates.DataConvPlain | libs/utils/vs/flow-node.util.ts:112-117 | the data-conversion template, cut at its hole, holds no `%` and no `$` |
| ScriptTemplates.RouteDoublePlain | libs/utils/vs/flow-node.util.ts:123-128 | the double-compare template, cut at its three holes, holds no `%` and no `$` |
| ScriptTemplates.RouteLongPlain | libs/utils/vs/flow-node.util.ts:134-139 | the same for the long-compare template |
| ScriptTemplates.RouteStringPlain | libs/utils/vs/flow-node.util.ts:145-150 | the same for the string-compare template |
| ScriptTemplates.RouteDatetimePlain | libs/utils/vs/flow-node.util.ts:156-161 | the same for the datetime-compare template |
| ScriptTemplates.ReqHeaderDelPlain | libs/utils/vs/flow-node.util.ts:167-170 | the same for the request-header delete template |
| ScriptTemplates.ReqHeaderSetPlain | libs/utils/vs/flow-node.util.ts:176-179 | the same for the request-header set template |
| ScriptTemplates.RspHeaderDelPlain | libs/utils/vs/flow-node.util.ts:185-188 | the same for the response-header delete template |
| ScriptTemplates.RspHeaderSetPlain | libs/utils/vs/flow-node.util.ts:194-197 | the same for the response-header set template |
| ScriptTemplates.MultiPortBoolPlain | libs/utils/vs/flow-node.util.ts:203-208 | the same for the port boolean-method template |
| ScriptTemplates.MultiPortCallVsPlain | libs/utils/vs/flow-node.util.ts:214-222 | the same for the vs utility's port-call template |
| ScriptTemplates.MultiPortCallLibPlain | libs/utils/flow-node.util.ts:216-222 | the same for the lib utility's port-call template |
| ScriptTemplates.PathValExpPlain | libs/utils/vs/flow-node.util.ts:228-231 | the same for the path-value expression template |
| ScriptTemplates.PathReplacePlain | libs/utils/vs/flow-node.util.ts:237-240 | the same for the path-replace statement template |
| ScriptTemplates.PathReplaceMethodPlain | libs/utils/vs/flow-node.util.ts:246-252 | the same for the path-replace method template |
| ScriptTemplates.SingleOutputVsPlain | libs/utils/vs/flow-node.util.ts:405-408 | the same for the vs utility's single-output call template |
| ScriptTemplates.SingleOutputLibPlain | libs/utils/flow-node.util.ts:359-363 | the same for the lib utility's single-output call template |
| ScriptTemplates.FlowNodesPlain | libs/utils/vs/flow-node.util.ts:431-451 | the same for the flow-node class template, cut at its four holes |
| ScriptTemplates.DefaultCallBodyPlain | libs/utils/vs/flow-node.util.ts:421-425 | the default call body holds no `%` and no `$` |
| ScriptTemplates.HttpGetExecPlain | libs/utils/vs/flow-node.util.ts:258-326 | the HTTP GET template holds no `%` at all (it has no hole) and no `$` |
| ScriptTemplates.HttpPostExecPlain | libs/utils/vs/flow-node.util.ts:331-398 | the HTTP POST template holds no `%` at all and no `$` |
| ScriptGen.FillFacts | libs/utils/vs/flow-node.util.ts:1336-1342 | filling plain segments with plain arguments interleaves them and stays plain; a `%`-free first segment survives any filling |
| ScriptGen.DataConvText | libs/utils/vs/flow-node.util.ts:462-464 | generateDataConvSourceCode puts the source expression in the template's hole |
| ScriptGen.RouteDoubleCompareText | libs/utils/vs/flow-node.util.ts:473-481 | the left value, then the right value, then the operator fill the three holes, in that order (not in argument order) |
| ScriptGen.RouteLongCompareText | libs/utils/vs/flow-node.util.ts:490-498 | likewise for the long comparison |
| ScriptGen.RouteStringCompareText | libs/utils/vs/flow-node.util.ts:507-515 | likewise for the string comparison |
| ScriptGen.RouteDatetimeCompareText | libs/utils/vs/flow-node.util.ts:524-532 | likewise for the datetime comparison |
| ScriptGen.ReqHeaderDeleteText | libs/utils/vs/flow-node.util.ts:539-541 | the key fills the request-header delete template |
| ScriptGen.ReqHeaderSetText | libs/utils/vs/flow-node.util.ts:549-557 | key and value fill the request-header set template, in order |
| ScriptGen.RspHeaderDeleteText | libs/utils/vs/flow-node.util.ts:564-566 | the key fills the response-header delete template |
| ScriptGen.RspHeaderSetText | libs/utils/vs/flow-node.util.ts:574-582 | key and value fill the response-header set template, in order |
| ScriptGen.PortBoolText | libs/utils/vs/flow-node.util.ts:590-598 | the method name and the port's script fill the boolean-method template |
| ScriptGen.PortCallText | libs/utils/vs/flow-node.util.ts:606-614 | the method name and the activated node id fill the variant's port-call template |
| ScriptGen.PathValExpText | libs/utils/vs/flow-node.util.ts:622-634 | the variable name and the default fill the path-value template |
| ScriptGen.PathReplaceStatementText | libs/utils/vs/flow-node.util.ts:647-665 | the placeholder `{name}` and the value expression fill the replace statement |
| ScriptGen.PathReplaceMethodDefineText | libs/utils/vs/flow-node.util.ts:672-677 | the body fills the changeUrlWhenPathVariable method template |
| ScriptGen.NoPercentNoReplace | libs/utils/vs/flow-node.util.ts:685-709 | replacing a pattern that starts with `%` in text without `%` changes nothing |
| ScriptGen.FillHttpNoHole | libs/utils/vs/flow-node.util.ts:685-709 | on a template without `%`, the two replacements of the HTTP generators change nothing |
| ScriptGen.HttpGetIgnoresArgs | libs/utils/vs/flow-node.util.ts:701-709 | the GET generator returns its template whatever url and timeout it is given |
| ScriptGen.HttpPostIgnoresArgs | libs/utils/vs/flow-node.util.ts:685-693 | the POST generator returns its template whatever url and timeout it is given |
| ScriptGen.ClassHeadNotBlank | libs/utils/vs/flow-node.util.ts:431-433 | the class text before its first hole holds a comment, so nothing that starts with it is blank |
| ScriptGen.SingleOutputHead | libs/utils/vs/flow-node.util.ts:718-728 | every single-output class text begins with the class head |
| ScriptGen.MultiOutputHead | libs/utils/vs/flow-node.util.ts:738-749 | every multi-output class text begins with the class head |
| ScriptGen.SingleOutputText | libs/utils/vs/flow-node.util.ts:718-728 | with plain arguments the class is the template with the class name, the call body, an empty second body and the extra members |
| ScriptGen.MultiOutputText | libs/utils/vs/flow-node.util.ts:738-749 | with plain arguments the multi-output class holds the call section, the boolean port methods and the extra members |
| ScriptGen.GeneratedNotBlank | libs/utils/vs/flow-node.util.ts:1486-1486 | every generated class text is non-blank, so the blank-script check never fires |
| FlowTask.FlowCtx.constructor | libs/utils/vs/flow-node-task.ts:62-63 | a new flow context starts empty |
| FlowTask.CtorFieldsSpec | libs/utils/vs/flow-node-task.ts:74-90 | the constructor stores nothing for an absent or empty node id; otherwise it keeps the id and body and sets every map, an absent one becoming empty |
| FlowTask.FlowNodeTask.constructor | libs/utils/vs/flow-node-task.ts:74-90 | the vs constructor stores the request fields of CtorFields and the breaker only for a truthy node id; no child is activated, no more data |
| FlowTask.FlowNodeTask.Init | libs/vs/flow-node-task.ts:301-308 | the lib default constructor leaves empty maps for the children, headers, parameters and a fresh flow context, and nothing else set |
| FlowTask.FlowNodeTask.Create | libs/vs/flow-node-task.ts:318-332 | `create` is the default construction followed by exactly the given id, body and maps |
| FlowTask.FlowNodeTask.CreateWithCircuitBreaker | libs/vs/flow-node-task.ts:343-354 | `createWithCircuitBreaker` is `create` followed by setting the breaker |
| FlowTask.DistinctKeysCount | libs/utils/vs/flow-node-task.ts:97-107 | a key list without repeats has as many entries as its key set, so a Map's `size` counts its entries |
| FlowTask.SizeIsCount | libs/utils/vs/flow-node-task.ts:97-107 | `size` of a valid table is the number of its distinct keys |
| FlowTask.DefaultActivationSpec | libs/utils/vs/flow-node-task.ts:97-124 | the default call passes without activation exactly when there is no child, activates the one child when there is exactly one, and throws naming the node exactly when there are several |
| FlowTask.CallOf | libs/utils/vs/flow-node-task.ts:92-125 | a call that throws keeps the activation the task had, and a call never clears an activation that was set |
| FlowTask.CallOfSpec | libs/utils/vs/flow-node-task.ts:92-125 | the default call copies both input bodies to the outputs (even when it throws), passes keeping the activation when there is no child, activates the one child when there is exactly one, and throws naming the node when there are several; an overriding call passes exactly when its step does, then taking the step's outputs and its activation (or keeping the old one), and a throwing one changes nothing |
| FlowTask.FlowNodeTask.Call | libs/utils/vs/flow-node-task.ts:92-125 | the outcome and the task's new output bodies and activation are those CallOf gives for the task's class, children, id, input bodies and old outputs |
| FlowTask.FlowNodeTask.EnableMoreData | libs/utils/vs/flow-node-task.ts:131-133 | afterwards the task reports more data |
| FlowTask.FlowNodeTask.DisableMoreData | libs/utils/vs/flow-node-task.ts:135-137 | afterwards the task reports no more data |
| FlowTask.FlowNodeTask.Log | libs/utils/vs/flow-node-task.ts:140-181 | without a queue nothing happens; otherwise exactly one record with the node's identity, the message and the idempotency id of the request is appended, even when reading the header fails |
| FlowTask.MsgIdOf | libs/utils/vs/flow-node-task.ts:153-154 | a record has a message id exactly when the task has a header map holding the idempotency header |
| FlowTask.FlowNodeTask.SetNodeName | libs/utils/vs/flow-node-task.ts:200-202 | sets the node name |
| FlowTask.FlowNodeTask.SetTaskType | libs/utils/vs/flow-node-task.ts:208-210 | sets the task type |
| FlowTask.FlowNodeTask.SetChildNodes | libs/utils/vs/flow-node-task.ts:216-218 | sets the child table |
| FlowTask.FlowNodeTask.SetCircuitBreaker | libs/utils/vs/flow-node-task.ts:256-258 | sets the breaker |
| FlowTask.FlowNodeTask.SetInputRequestBody | libs/utils/vs/flow-node-task.ts:288-290 | sets the input request body |
| FlowTask.FlowNodeTask.SetInputResponseBody | libs/utils/vs/flow-node-task.ts:296-298 | sets the input response body |
| FlowTask.FlowNodeTask.SetFlowCtx | libs/utils/vs/flow-node-task.ts:320-322 | sets the flow context |
| FlowTask.FlowNodeTask.SetBlockingQueue | libs/utils/vs/flow-node-task.ts:336-338 | sets the user-log queue |
| RuntimeFlow.ChildIdsSpec | libs/utils/vs/flow-node.util.ts:1644-1657 | a task's child keys are exactly the targets of its outgoing links, each once |
| RuntimeFlow.ChildIdsStep | libs/utils/vs/flow-node.util.ts:1656-1656 | one more link extends the child keys of its source at most by its target |
| RuntimeFlow.MissingClassSpec | libs/utils/vs/flow-node.util.ts:1613-1619 | some valid id lacks a compiled class exactly when one is reported, and the reported id is such an id |
| RuntimeFlow.MissingClassStep | libs/utils/vs/flow-node.util.ts:1613-1619 | the creation loop reports the current id when it is the first without a class |
| RuntimeFlow.MissingClassSticks | libs/utils/vs/flow-node.util.ts:1613-1619 | once an id without a class has been met, the loop's failure names it whatever follows |
| RuntimeFlow.NameOrDashSpec | libs/utils/vs/flow-node.util.ts:1631-1631 | a task's name is its known name, or `-` when the name is missing or empty, and never empty |
| RuntimeFlow.PreparedBuilt | libs/utils/vs/flow-node.util.ts:1613-1641 | every task of makeRtFlow has a class and carries the state makeRtFlow gives it |
| RuntimeFlow.OwnerInjective | libs/utils/vs/flow-node.util.ts:1612-1641 | different valid ids get different task objects |
| RuntimeFlow.WiredClosed | libs/utils/vs/flow-node.util.ts:1644-1666 | in the wired graph every child map is a valid table whose tasks are all tasks of the flow |
| RuntimeFlow.NodeIdsNonEmpty | libs/utils/vs/flow-node.util.ts:1598-1609 | once getNodeIdsMap passes there is a node and a link, so the two emptiness checks never throw; the start node is valid and not an end node |
| RuntimeFlow.MakeRtFlow | libs/utils/vs/flow-node.util.ts:1580-1679 | makeRtFlow passes on getNodeIdsMap's failure, throws naming the first id without a class, and otherwise returns the start task of a graph with one fresh task per valid id, wired by the links, with end tasks childless and the body as the start task's input |
| RuntimeFlow.Assemble | libs/utils/vs/flow-node.util.ts:1612-1678 | the same, once the node ids are known |
| RuntimeFlow.BuildTask | libs/utils/vs/flow-node.util.ts:1621-1638 | makeFlowNodeTask and the setters build a fresh task with the breaker, the name or `-`, the task type, the shared flow context and the queue |
| RuntimeFlow.MakeTasks | libs/utils/vs/flow-node.util.ts:1612-1641 | the creation loop builds one distinct fresh task per id, in order, or fails at the first id without a class |
| RuntimeFlow.ExtendTable | libs/utils/vs/flow-node.util.ts:1640-1640 | adding a freshly built task for a new id keeps the task table consistent |
| RuntimeFlow.LinkChildren | libs/utils/vs/flow-node.util.ts:1644-1657 | the link loop changes only the child maps, leaving each task's other state as built |
| RuntimeFlow.WireChildren | libs/utils/vs/flow-node.util.ts:1644-1657 | after the link loop each task's child map holds the targets of its links, in link order, each bound to its target's task |
| RuntimeFlow.WireStep | libs/utils/vs/flow-node.util.ts:1656-1656 | setting one link's target in its source's child map adds the target once, in insertion order |
| RuntimeFlow.UnlinkEnds | libs/utils/vs/flow-node.util.ts:1660-1666 | the end-node loop leaves the graph wired and the tasks as built |
| RuntimeFlow.ClearEnds | libs/utils/vs/flow-node.util.ts:1660-1666 | after the end-node loop end tasks have no child map and the others keep theirs |
| RuntimeFlow.PrepareStart | libs/utils/vs/flow-node.util.ts:1669-1676 | the start task receives the request body and no response body as its input, and nothing else changes |
| RuntimeFlow.PathExtend | libs/utils/vs/flow-node.util.ts:1416-1434 | stepping to the child listed under the activated key extends the walk by exactly that link of the child maps |
| RuntimeFlow.WalkedClose | libs/utils/vs/flow-node.util.ts:1395-1436 | a walk over the snapshot of the child maps stays among the flow's tasks and follows, step by step, the child maps of the tasks themselves |
| RuntimeFlow.CallsExtend | libs/utils/vs/flow-node.util.ts:1404-1434 | one more call of the current task with the inputs the previous call left extends the call record, and extends the walk's steps too when that call passed and activated a key |
| RuntimeFlow.CallsLonger | libs/utils/vs/flow-node.util.ts:1396-1399 | reaching a task without calling it (the walk over MAX_DEPTH) keeps the call record |
| RuntimeFlow.CallsClose | libs/utils/vs/flow-node.util.ts:1395-1436 | the calls over the snapshot are calls of the traced tasks themselves, each one's inputs are the outputs the one before left, and each step went to the key its call activated |
| RuntimeFlow.HandOff | libs/utils/vs/flow-node.util.ts:1427-1433 | the activated child receives the current task's output bodies as its inputs and shares its flow context |
| RuntimeFlow.UtilStep | libs/utils/vs/flow-node.util.ts:1396-1434 | one round calls the task (as CallOf says), stops at a leaf after a passing call, rethrows a throwing call's failure, fails naming the task when the activated key has no child, and otherwise hands the call's output bodies and the flow context to that child |
| RuntimeFlow.ProcessFlowOver | libs/utils/vs/flow-node.util.ts:1385-1437 | the loop over snapshots of the child maps and classes: the same walk, calls and failures as processFlow |
| RuntimeFlow.ProcessFlow | libs/utils/vs/flow-node.util.ts:1385-1437 | processFlow walks from the start task: the i-th call is a call of the i-th task reached, the first with the start's input bodies and each later one with the outputs the previous call left; each step passed and went to the child listed under the key that call activated; a leaf reached in at most MAX_DEPTH calls is returned with the last call's outputs and the start's flow context; a walk needing one more call throws; any other failure is the last call's throw, or NoActivatedChild naming the last task when its activated key has no child; child maps never change |
| CheckUtils.ValidateHttpMethod | apps/vs-run/src/utils/checkUtils.ts:31-40 | passes exactly when the request's method is the flow's method; otherwise an adapter error naming the requested method, then the required one |
| CheckUtils.CrossedMethodsRejected | apps/vs-run/src/utils/checkUtils.ts:35-38 | a GET request to a POST flow and a POST request to a GET flow are both refused, with the two methods in that order in the message |
| RequestHeaders.MakeRequestHeaderMap | apps/vs-run/src/utils/httpUtils.ts:16-55 | the loop over the request's header entries computes the header copy of the specification |
| RequestHeaders.HeaderMapNames | apps/vs-run/src/utils/httpUtils.ts:20-40 | every copied name is the name of a request header that is neither content-length, accept-encoding nor a multipart content-type |
| RequestHeaders.HeaderMapEntries | apps/vs-run/src/utils/httpUtils.ts:20-51 | with distinct names, a header is copied exactly when it is kept; a string is copied as it is, a list gives its first element and an empty list nothing |
| RunController.VsHttpMethodSpec | apps/vs-run/src/vs-run.controller.ts:313-323 | a method is accepted exactly when its upper-case form is GET or POST, whatever its case, and every method's own code maps back to it; any other method is refused, naming it |
| RunController.IsSystemHeaderSpec | apps/vs-run/src/vs-run.controller.ts:304-311 | the system-header test ignores case, holds for the four system header names and never for Content-Type |
| RunController.SystemHeadersSpec | apps/vs-run/src/vs-run.controller.ts:325-346 | the system header map has the four names in order, each with the request's value under exactly that name |
| RunController.AdmitSpec | apps/vs-run/src/vs-run.controller.ts:57-138 | a request is admitted exactly when its method is accepted and it either has an accepted content type or is a GET without one; the body is passed on only with a content type; a POST without a content type and an unaccepted content type are refused |
| RunController.RewrittenSpec | apps/vs-run/src/vs-run.controller.ts:273-302 | the response carries the system headers with the request's values, Content-Type (application/json unless the result sets it) and the result headers that are not system headers; a result header can never overwrite a system header |
| RunController.SystemHeadersKept | apps/vs-run/src/vs-run.controller.ts:282-295 | the request's system headers reach the response unchanged whatever headers the flow sets |
| RunController.ResponseHeaders | apps/vs-run/src/vs-run.controller.ts:279-301 | every response carries each system header with the request's value and a Content-Type |
| RunController.RewrittenIs | apps/vs-run/src/vs-run.controller.ts:279-295 | a header record that agrees with the rewritten headers key by key is that record |
| RunController.RewriteResponse | apps/vs-run/src/vs-run.controller.ts:273-302 | rewriteResponse answers status 200 with the rewritten headers and the result as body |
| RunController.RunStep | apps/vs-run/src/vs-run.controller.ts:391-462 | one round calls the task (as CallOf says) without looking at its outcome, stops at a task without a child map, fails naming the task when the activated key has no child, and otherwise hands the call's output bodies and the flow context to that child |
| RunController.RunFlowOver | apps/vs-run/src/vs-run.controller.ts:359-463 | the loop over snapshots of the child maps and classes: the same walk, calls and failures as the controller's walk |
| RunController.RunFlow | apps/vs-run/src/vs-run.controller.ts:352-484 | the controller's walk: the i-th call is a call of the i-th task reached, the first with the start's input bodies and each later one with the outputs the previous call left; each step went to the child listed under the key that call activated, whether or not the call threw; a task without a child map reached within 256 calls ends the walk with the last call's outputs and the start's flow context; a walk needing one more call fails; any other failure is NoActivatedChild naming the last task; child maps never change |
| RunController.Process | apps/vs-run/src/vs-run.controller.ts:171-265 | process fails as the method check, getNodeIdsMap or the class lookup fail, and otherwise answers with the last task's output body and rewritten headers |
| RunController.Rewrap | apps/vs-run/src/vs-run.controller.ts:166-167 | vsAdapterRaw rethrows any failure as an adapter error with the same message |
| RunController.DefinedValues | apps/vs-run/src/vs-run.controller.ts:87-92 | the response header map handed to the run holds exactly the system headers the request defines, with their values |
| RunController.FetchProject | apps/vs-run/src/vs-run.controller.ts:183-183 | a missing project and an offline project are refused, naming the path, and the cache stays bounded |
| RunController.VsAdapterRaw | apps/vs-run/src/vs-run.controller.ts:143-169 | every failure of loading or running becomes an adapter error; a success is status 200 with the last task's output and rewritten headers |
| RunController.RunFetched | apps/vs-run/src/vs-run.controller.ts:154-168 | a failed fetch is rethrown as an adapter error with its message, a failed run likewise, and a passing run answers 200 with the last task's output and the rewritten headers |
| RunController.VsAdapter | apps/vs-run/src/vs-run.controller.ts:57-138 | a refused request fails before anything runs and leaves the cache alone; a response is status 200 with the request's system headers under their names and a Content-Type |
| VsProject.NameTableSpec | apps/vs-run/src/vs-project/vs-project.service.ts:243-249 | the name table has the ids of the node index, each with the name of the node the index keeps |
| VsProject.BuildNameTable | apps/vs-run/src/vs-project/vs-project.service.ts:243-249 | the forEach that fills nodeId2NodeName computes the name table |
| VsProject.NodeIndexKeys | apps/vs-run/src/vs-project/vs-project.service.ts:263-267 | each node of the node index is stored under its own id |
| VsProject.NodeTableSpec | apps/vs-run/src/vs-project/vs-project.service.ts:263-267 | nodeId2node as an ordered Map is valid, holds the same entries as the plain index and lists exactly the node ids |
| VsProject.OutputsOf | apps/vs-run/src/vs-project/vs-project.service.ts:390-397 | the filter keeps exactly the output ports |
| VsProject.Rethrow | apps/vs-run/src/vs-project/vs-project.service.ts:280-286 | a data-consistency error of the flow helpers is rethrown as an adapter error with the same message, any other as it is |
| VsProject.BuildNodeTable | apps/vs-run/src/vs-project/vs-project.service.ts:263-267 | the forEach that fills nodeId2node computes the ordered node table |
| VsProject.ClassesSpec | apps/vs-run/src/vs-project/vs-project.service.ts:305-346 | the class table has exactly the valid nodes, each with what its artifact loads to; a failure is an adapter error naming the project and a valid node that is not atomic, has an empty artifact or does not load |
| VsProject.LoadClasses | apps/vs-run/src/vs-project/vs-project.service.ts:308-346 | the loop over the valid nodes computes the class table of the specification |
| VsProject.BreakerConfigBounds | apps/vs-run/src/vs-project/vs-project.service.ts:427-434 | for settings the editor accepts, the open state lasts 30 s to 30 min, in milliseconds, and the counts keep their bounds |
| VsProject.BreakersOk | apps/vs-run/src/vs-project/vs-project.service.ts:399-441 | a passing breaker table holds the breaker of each node that got one and nothing for the others |
| VsProject.BreakersFail | apps/vs-run/src/vs-project/vs-project.service.ts:399-441 | a failing breaker table fails with the failure of one of its nodes |
| VsProject.BreakersSpec | apps/vs-run/src/vs-project/vs-project.service.ts:383-442 | the breaker table holds exactly the configured HTTP nodes, each with the breaker registered under its id |
| VsProject.BreakerForFailures | apps/vs-run/src/vs-project/vs-project.service.ts:401-426 | a non-HTTP node never fails and gets no breaker; an HTTP node with several output ports fails naming the project and node; any other failure comes from an unreadable configuration |
| VsProject.BreakersFailSticks | apps/vs-run/src/vs-project/vs-project.service.ts:401-441 | once a node fails, the whole table fails the same way |
| VsProject.BreakersStep | apps/vs-run/src/vs-project/vs-project.service.ts:401-441 | one more node adds its breaker, is skipped, or ends the table with its failure |
| VsProject.NodeBreaker | apps/vs-run/src/vs-project/vs-project.service.ts:402-440 | the loop body for one node computes the breaker decision of the specification |
| VsProject.GetCircuitBreakerMap | apps/vs-run/src/vs-project/vs-project.service.ts:383-442 | getCircuitBreakerMap computes the breaker table over nodeId2node in its order |
| VsProject.ParseAsWritten | apps/vs-run/src/vs-project/vs-project.service.ts:422-422 | as written, the parse of a port's properties always throws a type error (the parser is not a member of the service) |
| VsProject.ConfiguredHttpNodeThrowsAsWritten | apps/vs-run/src/vs-project/vs-project.service.ts:418-422 | as written, a project with an HTTP node whose single output port carries a configuration cannot be compiled |
| VsProject.ConfiguredHttpNodeGetsBreaker | apps/vs-run/src/vs-project/vs-project.service.ts:418-440 | with a working parser the same project gets the breaker of its HTTP node |
| VsProject.SinglePortGroup | apps/vs-run/src/vs-project/vs-project.service.ts:390-397 | a lone output port is its node's only output port |
| VsProject.Compile | apps/vs-run/src/vs-project/vs-project.service.ts:217-381 | the build computes the compiled project of the specification |
| VsProject.CompileFlow | apps/vs-run/src/vs-project/vs-project.service.ts:289-380 | the build after flattening computes the rest of the specification |
| VsProject.CompiledFields | apps/vs-run/src/vs-project/vs-project.service.ts:364-379 | a compiled project carries the row's id, name, version and method and the node and name tables of its nodes |
| VsProject.CompiledHasClasses | apps/vs-run/src/vs-project/vs-project.service.ts:305-346 | every valid node of a compiled flow has a class, so the runtime never meets a node without one |
| VsProject.CompiledBreakers | apps/vs-run/src/vs-project/vs-project.service.ts:348-354 | a compiled project has a breaker exactly for each configured HTTP node |
| VsProject.AfterLookupSpec | apps/vs-run/src/vs-project/vs-project.service.ts:182-199 | a lookup keeps the cache valid and bounded, serves only a fresh entry, deletes an expired one and otherwise changes nothing |
| VsProject.EvictSpec | apps/vs-run/src/vs-project/vs-project.service.ts:203-213 | evicting the oldest key of a full cache leaves one entry fewer |
| VsProject.CardIsSize | apps/vs-run/src/vs-project/vs-project.service.ts:203-203 | a valid cache has as many projects as stamps |
| VsProject.StoreValid | apps/vs-run/src/vs-project/vs-project.service.ts:201-215 | storing keeps the two caches in step |
| VsProject.StoreBounded | apps/vs-run/src/vs-project/vs-project.service.ts:201-215 | storing keeps the cache within MAX_CACHE_SIZE entries unless the path is empty |
| VsProject.StoreServes | apps/vs-run/src/vs-project/vs-project.service.ts:201-215 | after storing, the path holds the project with a stamp of now and is served unless now is 0 |
| VsProject.StoreKeepsOthers | apps/vs-run/src/vs-project/vs-project.service.ts:201-215 | storing leaves every other path with its project, except the evicted oldest key |
| VsProject.VsProjectService.constructor | apps/vs-run/src/vs-project/vs-project.service.ts:122-126 | the service starts with empty, bounded caches |
| VsProject.VsProjectService.GetCachedProject | apps/vs-run/src/vs-project/vs-project.service.ts:182-199 | getCachedProject serves the fresh entry or nothing, and deletes an expired entry from both caches |
| VsProject.VsProjectService.SetCachedProject | apps/vs-run/src/vs-project/vs-project.service.ts:201-215 | setCachedProject evicts the oldest key of a full cache, then stores the project and its stamp |
| VsProject.VsProjectService.SlowGetProjectAndUpdateCache | apps/vs-run/src/vs-project/vs-project.service.ts:217-381 | the project is compiled and, when that succeeds, stored; a failure leaves the cache alone |
| VsProject.VsProjectService.GetProjectFlow | apps/vs-run/src/vs-project/vs-project.service.ts:143-180 | a missing or offline project is refused, naming the path, with the cache untouched; a fresh cached entry of the row's version is served; otherwise the project is compiled and cached |
| RouteEnum.DataTypeOf | libs/enum/src/port.route.enum.ts:8-13 | a code names a route data type exactly when it is that member's string value; any other code names none |
| RouteEnum.CheckSpec | libs/enum/src/port.route.enum.ts:28-83 | a validator passes exactly for a known type code whose check accepts the value; otherwise it fails with "unsupported type" exactly for an unknown code, with "null value" for a null STRING, and names the value, the code and the node |
| RouteEnum.IntegerAndStringRules | libs/enum/src/port.route.enum.ts:34-48 | INTEGER accepts exactly the strings `BigInt` parses, and STRING refuses only null |
| RouteEnum.MatchAgreesWithValidators | libs/enum/src/port.route.enum.ts:92-103 | `match` is true exactly when validateAndThrowException does not throw; matchRouteMetaDataType answers exactly what validateRouteMetaDataType decides |
| RouteEnum.LooseAndStrictDates | libs/enum/src/port.route.enum.ts:230-281 | the class validator and validateRouteMetaDataType agree on every type but DATETIME, and differ there exactly where loose and strict date parsing disagree |
| RouteEnum.BigIntTakesEmpty | libs/enum/src/port.route.enum.ts:36-37 | `BigInt("")` is 0n, so an empty value passes the INTEGER check |
| RouteEnum.RouteOpOf | libs/enum/src/port.route.enum.ts:108-115 | a code names a comparison operator exactly when it is that member's string value |
| RouteEnum.OperatorTable | libs/enum/src/port.route.enum.ts:128-135 | every operator code maps to its own JavaScript comparison, and distinct operators map to distinct comparisons |
| RouteEnum.SourceExpressionText | libs/enum/src/port.route.enum.ts:144-165 | REQ_HEADER reads `this.getRequestHeader()`, REQ_PARAM reads `this.getRequestParam()`, and any other source code is written as `undefined` |
| PortProps.WithParamDefault | apps/vs-adapter/src/port/dto/VsPortPropHttp.ts:24-38 | a path parameter keeps its name, and a missing default value becomes the empty string |
| PortProps.HttpViolationsSpec | apps/vs-adapter/src/port/dto/VsPortPropHttp.ts:44-117 | the http section's validators report no property exactly when the section is valid |
| PortProps.DefaultsValid | apps/vs-adapter/src/port/dto/VsPortPropHttp.ts:67-116 | a section holding only its api id validates and takes the initialisers' values: 120 s timeout, window 100, minimum 50 calls, 20 % threshold, 60 s open, 10 half-open calls |
| PortProps.ValidateHttpSpec | apps/vs-adapter/src/port/dto/VsPortPropHttp.ts:44-117 | a section validates exactly when it has an api id and every value it gives is within its Min/Max bounds, the method is one of the enum's and every path parameter name has 1 to 64 characters; given values are kept and missing ones take their defaults |
| PortProps.VsPort.constructor | apps/vs-adapter/src/port/dto/update-port.dto.ts:22 | a new port entity has every column unset |
| PortProps.ToVsPort | apps/vs-adapter/src/port/dto/update-port.dto.ts:21-52 | a fresh entity whose columns are those the request yields |
| PortProps.PortColumnsSpec | apps/vs-adapter/src/port/dto/update-port.dto.ts:21-52 | the id and the properties are always copied; an http section's method (even an absent one) overwrites the context section's; path, timeout and api columns come from their own sections and stay unset without them |
| AdapterStore.FilterMembers | apps/vs-adapter/src/link/link.service.ts:15-23 | a `findMany` filter keeps exactly the rows that satisfy its condition and is never longer than the table |
| AdapterStore.First | apps/vs-adapter/src/link/link.service.ts:64-72 | `findUnique` yields a row of the table that has the key, and nothing only when no row has it |
| AdapterStore.Update | apps/vs-adapter/src/project/project.service.ts:317-327 | an `update` where the key matches rewrites exactly the matching rows and keeps the table's length and order |
| LinkService.LayerOf | apps/vs-adapter/src/link/link.service.ts:95-128 | a link runs on one layer exactly when both parents are top-level or both are not, into a container exactly when only the target is inside one, and out of one exactly when only the source is |
| LinkService.ValidPortSpec | apps/vs-adapter/src/link/link.service.ts:87-140 | the three layer tests cover every case, so the silent fourth branch is never taken; a link passes exactly when its source and target ports are the kinds its layer demands, and is otherwise a bad request |
| LinkService.CreateGuardSpec | apps/vs-adapter/src/link/link.controller.ts:20-28 | the controller refuses exactly the links with one node or one port at both ends, naming the node when both hold |
| LinkService.PickSpec | apps/vs-adapter/src/link/link.service.ts:55-63 | the intended loop picks a start node with the source id and an end node with the target id, each missing exactly when no node has that id, and leaves the request's source id alone |
| LinkService.PickAsWrittenTakesLast | apps/vs-adapter/src/link/link.service.ts:58 | as written, the assignment makes the last node the start and overwrites the request's source id with that node's id |
| LinkService.PickAsWrittenSelfLoop | apps/vs-adapter/src/link/link.service.ts:57-60 | with the source node stored before the target, the loop as written picks the target as both start and end, where the intended loop picks the source and the target |
| LinkService.PickEndpoints | apps/vs-adapter/src/link/link.service.ts:55-60 | the endpoint loop computes the intended pick |
| LinkService.AddStepSpec | apps/vs-adapter/src/link/link.service.ts:14-86 | a link is added only when no link has its four endpoints, both its nodes and ports exist and its ports suit its layer; it then writes exactly the request's endpoints into the row with the request's id and changes nothing else; a refused link changes nothing |
| LinkService.Add | apps/vs-adapter/src/link/link.service.ts:14-86 | the outcome and the new store are those of the add step on the old store, which uses the intended pick of the start node (the node whose id is the source id) in place of the assignment at line 58 |
| LinkService.Create | apps/vs-adapter/src/link/link.controller.ts:20-28 | a request the controller's guard refuses leaves the store unchanged; any other is the service's add |
| PortService.CheckNameLengthSpec | apps/vs-adapter/src/port/port.service.ts:103-116 | the name rule refuses exactly an output port of a COMPOSITE_NORMAL node whose name is missing (a TypeError) or longer than 10 characters (a bad request) |
| PortService.RouteScriptShape | apps/vs-adapter/src/port/port.service.ts:332-346 | a route port without a route section is a bad request, and one whose section does not hold exactly one condition is refused before the condition is read |
| PortService.RouteScriptOfCondition | apps/vs-adapter/src/port/port.service.ts:349-413 | a right value its data type refuses fails with the validator's exception even when the key is empty; an empty key or right value is refused next; otherwise the script is the data type's template over `source['key']`, the op's operator and the right value, and the unsupported-type branch is never reached |
| PortService.LeftValueText | apps/vs-adapter/src/port/port.service.ts:374-375 | a condition on the request headers or parameters reads that map at its key |
| PortService.GivenScript | apps/vs-adapter/src/port/port.service.ts:415-436 | the CONVERT and END generators succeed exactly when the port has a non-empty script, return it, and otherwise fail with a bad request naming the port and the node |
| PortService.ChangeStatementsSpec | apps/vs-adapter/src/port/port.service.ts:464-473 | the loop pushes one replace statement per path parameter, in the parameters' order |
| PortService.AdditionDefineJoins | apps/vs-adapter/src/port/port.service.ts:463-486 | both branches give the replace method around the newline-joined statements, since no statements join to the empty string |
| PortService.HttpCheckSpec | apps/vs-adapter/src/port/port.service.ts:442-503 | an HTTP port passes exactly when it has an http section with a url, a timeout, a method GET or POST and a path-parameter list; every refusal is a bad request except the missing list, which is a TypeError |
| PortService.HttpScriptOfSpec | apps/vs-adapter/src/port/port.service.ts:437-505 | the generator fails exactly as its checks do; otherwise it fills the template of the section's method with its url and decimal timeout, with one replace statement per path parameter in the define |
| PortService.GenerateHttpScript | apps/vs-adapter/src/port/port.service.ts:437-505 | the generator's loop and branches compute the HTTP script value |
| PortService.ModifyWrites | apps/vs-adapter/src/port/port.service.ts:118-291 | an update writes only the projects, and of them only the row of the port's own project; a refused update writes nothing |
| PortService.ContextPathUnique | apps/vs-adapter/src/port/port.service.ts:172-216 | after a CONTEXT output port's update passes, the port's project serves the path and no other project does |
| PortService.ModifyWithoutScript | apps/vs-adapter/src/port/port.service.ts:161-282 | a port without its own script passes only as an OUTPUT port of a composite, CONTEXT, ROUTE, DATA_MAPPING or HTTP node; the CONVERT and END generators, which demand that missing script, and every INPUT port refuse |
| PortService.ModifyWithScript | apps/vs-adapter/src/port/port.service.ts:161-164 | a port with its own script passes exactly when the port, its node and the name rule do, whatever its kinds, and writes nothing |
| PortService.Modify | apps/vs-adapter/src/port/port.service.ts:118-291 | the outcome and the new store are those of the modify step on the old store |
| PortService.EndTestAsWritten | apps/vs-adapter/src/port/port.service.ts:63-66 | the written end-node test holds exactly for END nodes; the intended one holds also for COMPOSITE_END nodes |
| PortService.AddAsWrittenNeverAdds | apps/vs-adapter/src/port/port.service.ts:90-95 | as written, every add fails and writes nothing, with a TypeError once the checks pass, because the request object has no `toVsPort` method |
| PortService.CompositeEndOutputPort | apps/vs-adapter/src/port/port.service.ts:63-70 | a COMPOSITE_END node without ports accepts an OUTPUT port under the written test and refuses it under the intended one |
| PortService.AddSpec | apps/vs-adapter/src/port/port.service.ts:25-101 | an add that passes its checks creates the row on the node's project, which stays even if the following update fails; an INPUT port is its node's first and not on a CONTEXT node, an OUTPUT port is not on an end node, and a CONTEXT, HTTP or DATA_MAPPING node had no OUTPUT port yet |
| PortService.AddKeepsSingleInput | apps/vs-adapter/src/port/port.service.ts:26-39 | adding a port keeps every node at one INPUT port at most |
| PortService.Add | apps/vs-adapter/src/port/port.service.ts:25-101 | the outcome and the new store are those of the intended add step on the old store |
| NodeService.NewPorts | apps/vs-adapter/src/node/node.service.ts:95-107 | `createMany` is given one row per port of the request, in order, each on the new node and its project |
| NodeService.PortRulesSpec | apps/vs-adapter/src/node/node.service.ts:77-93 | the port loop passes exactly when no INPUT port is added to a CONTEXT node and no OUTPUT port to a COMPOSITE_END node |
| NodeService.PortRulesSticks | apps/vs-adapter/src/node/node.service.ts:77-93 | the first port that breaks the rule decides the loop's failure |
| NodeService.NodeAddSpec | apps/vs-adapter/src/node/node.service.ts:30-115 | a node rule or a taken id refuses the add and writes nothing; otherwise the node row is written and stays even when a port is refused, and the port rows are written only when every port passes |
| NodeService.NodeAddKeepsOneStart | apps/vs-adapter/src/node/node.service.ts:31-49 | an add never gives a project a second CONTEXT node, whatever its outcome |
| NodeService.NodeAdd | apps/vs-adapter/src/node/node.service.ts:30-115 | the outcome and the new store are those of the add step on the old store |
| NodeService.NodesMap | apps/vs-adapter/src/node/node.service.ts:131-134 | the node map holds every node's id, and each key maps to a node of the list with that id |
| NodeService.SortBySpec | apps/vs-adapter/src/node/node.service.ts:231-233 | the port sort orders by the key and keeps every element as often as it occurs |
| NodeService.SortByEqualKeys | apps/vs-adapter/src/node/node.service.ts:257-259 | a comparator that finds every pair equal leaves the list as it was |
| NodeService.RawSortKeepsStoreOrder | apps/vs-adapter/src/node/node.service.ts:257-259 | as written, ports with orders 2 and 1 stay in store order because the comparator reads `order` of unparsed JSON text; sorted as intended they swap |
| NodeService.RawSortSpec | apps/vs-adapter/src/node/node.service.ts:306-311 | the written sort leaves a node's ports in store order; the intended one orders them by `order` and keeps every port of the node |
| NodeService.TopLayerSplit | apps/vs-adapter/src/node/node.service.ts:164-177 | each top-layer node is in exactly one of the atomic and composite lists, and neither list holds any other node |
| NodeService.EndpointDefinitionsSpec | apps/vs-adapter/src/node/node.service.ts:219-238 | one definition per top-layer atomic node, in order, holding exactly that node's ports sorted by order |
| NodeService.SelectSpec | apps/vs-adapter/src/node/node.service.ts:205-218 | a filter loop whose test may throw passes exactly when no test throws, then keeps exactly the elements whose test holds; otherwise it fails at the first element whose test throws |
| NodeService.UpLayerLinksSpec | apps/vs-adapter/src/node/node.service.ts:205-218 | the top layer's links are, in order, exactly the links with both endpoints known and on the top layer; the loop fails with a TypeError exactly when a link starts at an unknown node, or starts on the top layer and ends at an unknown one |
| NodeService.DownLayerKeepSimple | apps/vs-adapter/src/node/node.service.ts:330-352 | with both endpoints known, a link belongs to a composite's second layer exactly when an endpoint is a child of the composite or is the composite itself |
| NodeService.DownLayerLinksSpec | apps/vs-adapter/src/node/node.service.ts:319-355 | the second layer's links are, in order, the links the three cases keep; the loop fails with a TypeError exactly when a link's test reads an unknown node |
| NodeService.VirtualsOf | apps/vs-adapter/src/node/node.service.ts:279-300 | one virtual node per port of the composite, in order |
| NodeService.RealsOf | apps/vs-adapter/src/node/node.service.ts:304-316 | one entry per child node, in store order, each with its own ports |
| NodeService.DownLayerNodesSpec | apps/vs-adapter/src/node/node.service.ts:274-318 | a composite without ports fails; otherwise the layer holds one virtual node per port, with the port's id, name and order, the composite as parent and the kind given by the port type, sorted by order, followed by every child node in store order with its ports |
| NodeService.GetDownLayerNodes | apps/vs-adapter/src/node/node.service.ts:274-318 | the two loops and the sort compute the second layer as specified |
| NodeService.ListSpec | apps/vs-adapter/src/node/node.service.ts:117-204 | a missing project is not found and any builder failure is rethrown as unauthorized; a listing holds one endpoint per top-layer atomic node, the links between top-layer nodes and one route definition per top-layer composite, in order |
| ProjectService.MaxId | apps/vs-adapter/src/project/project.service.ts:96-106 | the largest id is at least every row's id and never negative, so the next auto-increment key is fresh |
| ProjectService.AddSpec | apps/vs-adapter/src/project/project.service.ts:86-108 | a taken name is refused as unauthorized and writes nothing; otherwise one OFFLINE project with the request's name and description, a fresh id and no compile result is appended |
| ProjectService.AddKeepsUnique | apps/vs-adapter/src/project/project.service.ts:86-108 | adding keeps project names and ids unique |
| ProjectService.RecordCompileResultSpec | apps/vs-adapter/src/project/project.service.ts:360-386 | updateCompileResult passes exactly when the project exists, then changes only that project's properties, setting the compile result and keeping every other key; a failure writes nothing |
| ProjectService.RecordCompileResultReads | apps/vs-adapter/src/project/project.service.ts:375-383 | after the update the project reports the new compile result and keeps its version |
| ProjectService.FirstAfterUpdate | apps/vs-adapter/src/project/project.service.ts:378-383 | looking a project up after a key-preserving update finds the updated row |
| ProjectService.CompileSpec | apps/vs-adapter/src/project/project.service.ts:159-181 | compile refuses a missing or ONLINE project as a bad request and writes nothing; otherwise it records COMPILING with the request time and leaves the nodes alone |
| ProjectService.UpdateRecordsSpec | apps/vs-adapter/src/project/project.service.ts:465-486 | the records pass exactly when every compiled node has a non-empty script and a non-empty artifact, and then carry them in map order; otherwise a bad request names an offending node |
| ProjectService.UpdateRecordsAsWrittenIgnoresArtifacts | apps/vs-adapter/src/project/project.service.ts:459-466 | as written, the list walks the entries of an unawaited promise, so a node with an empty script and artifact is not refused and no node is updated |
| ProjectService.GetUpdateRecord | apps/vs-adapter/src/project/project.service.ts:465-486 | the record loop computes the intended records, stopping at the first empty script or artifact |
| ProjectService.ApplyUpdatesOk | apps/vs-adapter/src/project/project.service.ts:292-300 | storing the records passes exactly when every record names a node of the table |
| ProjectService.ApplyUpdatesValue | apps/vs-adapter/src/project/project.service.ts:292-300 | stored records change only the nodes, each row patched by the records that name it |
| ProjectService.PatchedKeepsId | apps/vs-adapter/src/project/project.service.ts:293-299 | a node update keeps the node's id, project and properties |
| ProjectService.PatchedDistinct | apps/vs-adapter/src/project/project.service.ts:292-300 | with distinct record ids, a named node ends with its record's script and artifact, and an unnamed node is unchanged |
| ProjectService.ApplyKeepsProjects | apps/vs-adapter/src/project/project.service.ts:292-300 | storing the records leaves the projects, ports and links as they were and keeps the node count |
| ProjectService.BumpSpec | apps/vs-adapter/src/project/project.service.ts:302-333 | the bump needs the project, succeeds exactly when one of the ten attempts does not lose its race, and then raises the version by one and changes nothing else |
| ProjectService.BumpWins | apps/vs-adapter/src/project/project.service.ts:305-327 | a bump with a winning attempt raises the version from v to v + 1 |
| ProjectService.SetVersionReads | apps/vs-adapter/src/project/project.service.ts:317-325 | a bumped version reads back as written |
| ProjectService.BumpAsWrittenLosesRace | apps/vs-adapter/src/project/project.service.ts:317-327 | as written, a lost race still counts as success on the first attempt with the version unchanged, where a retrying loop bumps it on the next attempt |
| ProjectService.TaskQueryFailed | apps/vs-adapter/src/project/project.service.ts:257-263 | a failed query records QUERY_FAILED with its message and touches no node |
| ProjectService.TaskCompileFailed | apps/vs-adapter/src/project/project.service.ts:270-286 | a failed compilation records COMPILE_FAILED with the error's message and touches no node |
| ProjectService.StoreWins | apps/vs-adapter/src/project/project.service.ts:289-338 | storing the records and winning a bump attempt records COMPILE_SUCCESS, stores every record and raises the version by one |
| ProjectService.StoreBumped | apps/vs-adapter/src/project/project.service.ts:335-338 | after a winning bump, the transaction ends with updateCompileResult on the bumped tables |
| ProjectService.StoreLoses | apps/vs-adapter/src/project/project.service.ts:339-350 | losing every bump attempt records COMPILE_FAILED, throws, and rolls back the nodes and the version |
| ProjectService.TaskCompiled | apps/vs-adapter/src/project/project.service.ts:288-350 | a compilation whose records are stored succeeds exactly when one of the ten bump attempts wins |
| ProjectService.StoreNodesOnlyOnSuccess | apps/vs-adapter/src/project/project.service.ts:289-346 | the transaction changes node rows only when it records COMPILE_SUCCESS |
| ProjectService.TaskNodesOnlyOnSuccess | apps/vs-adapter/src/project/project.service.ts:200-355 | node scripts and artifacts change only when the task records COMPILE_SUCCESS |
| ProjectService.Service.constructor | apps/vs-adapter/src/project/project.service.ts:41-44 | the service starts with the store and no submitted tasks |
| ProjectService.Service.Add | apps/vs-adapter/src/project/project.service.ts:86-108 | the result and the new store are those of the add step |
| ProjectService.Service.UpdateCompileResult | apps/vs-adapter/src/project/project.service.ts:360-386 | the outcome and the new store are those of recording the compile result |
| ProjectService.Service.Compile | apps/vs-adapter/src/project/project.service.ts:159-198 | the outcome and the new store are those of the compile step, and a passing compile registers the project's task |
| ProjectService.Service.ExecuteCompileTask | apps/vs-adapter/src/project/project.service.ts:200-355 | the outcome and the new store are those of the task step, and the project's registry entry is always cleared |
| ProjectService.Service.StoreCompiled | apps/vs-adapter/src/project/project.service.ts:289-350 | the transaction's outcome and tables are those of the store step, rolled back on a throw |
| ProjectService.Service.StoreRecords | apps/vs-adapter/src/project/project.service.ts:292-300 | the node updates give what ApplyUpdates gives, and a failure restores the tables |
| ProjectService.Service.BumpVersion | apps/vs-adapter/src/project/project.service.ts:302-333 | the bump loop gives what BumpFrom gives, writes the bumped tables on success and nothing otherwise |
| ExecContext.ToMillisecondsScales | libs/utils/vs/VsExecContext.ts:12-27 | each time unit is the previous one scaled by its factor (1000, 60, 60, 24), so a day is 86 400 000 ms |
| ExecContext.TimerDelay | libs/utils/vs/VsExecContext.ts:87-93 | the delay the timer applies lies in 1 to 2^31-1 ms and equals the requested delay when that is within the range |
| ExecContext.LongDurationExpiresAtOnce | libs/utils/vs/VsExecContext.ts:83-93 | a duration of 25 days or more overflows the timer, so the value expires after one millisecond |
| ExecContext.TaskBook.constructor | libs/utils/vs/VsExecContext.ts:40-41 | the shared task table starts empty with the counter at 0 |
| ExecContext.Context.constructor | libs/utils/vs/VsExecContext.ts:44-47 | a context starts with no values and no clean-up tasks, and is valid |
| ExecContext.Context.Set | libs/utils/vs/VsExecContext.ts:68-107 | the key maps to the new value and every other key keeps its own; the key's old task is cancelled and a new one under the next task number is due after the converted duration; every stored key keeps exactly one task |
| ExecContext.Context.Expire | libs/utils/vs/VsExecContext.ts:87-93 | a firing clean-up removes its key, its entry in the task map and its task in the shared table, and nothing else |
| ExecContext.Context.Clear | libs/utils/vs/VsExecContext.ts:123-135 | both maps end empty and exactly this context's tasks leave the shared table |
| ExecContext.Cancel | libs/utils/vs/VsExecContext.ts:125-128 | the forEach removes from the shared table exactly the task keys of the context's tasks |
| ExecContext.TaskKeysAdd | libs/utils/vs/VsExecContext.ts:125-128 | one more cancelled entry removes exactly its own task key |
| ExecContext.SizeIsPendingTasks | libs/utils/vs/VsExecContext.ts:147-149 | in a valid context the number of stored keys is the number of pending clean-up tasks |
| FieldTypes.AllTypesComplete | libs/enum/src/VsDataConvertFieldTypeEnum.ts:4-25 | the list of tags holds every field type |
| FieldTypes.CodeRoundTrip | libs/enum/src/VsDataConvertFieldTypeEnum.ts:61-63 | reading a tag's code back gives the tag, a string reads back only to the tag whose code it is, and no code is empty |
| FieldTypes.CodeInjective | libs/enum/src/VsDataConvertFieldTypeEnum.ts:4-25 | distinct tags have distinct codes |
| FieldTypes.DescTotal | libs/enum/src/VsDataConvertFieldTypeEnum.ts:30-56 | every tag has a non-empty description, and an array tag's description is the array prefix followed by its element's |
| FieldTypes.UtilsAgree | libs/enum/src/data.mapping.enum.ts:43-117 | the list-based classifiers agree with the comparison-based ones on every tag |
| FieldTypes.AtomicGroups | libs/enum/src/VsDataConvertFieldTypeEnum.ts:68-103 | there are four atomic tags and their four array forms, and the two groups are disjoint |
| FieldTypes.Unions | libs/enum/src/VsDataConvertFieldTypeEnum.ts:81-112 | the combined tests are the unions their names say |
| FieldTypes.ArrayTypeExcludesObjects | libs/enum/src/VsDataConvertFieldTypeEnum.ts:138-143 | isArrayType is false exactly for OBJECT and ARRAY_OBJECT, so it also holds for the atomic tags |
| FieldTypes.SingleTagTests | libs/enum/src/VsDataConvertFieldTypeEnum.ts:117-133 | the object, array-object and array-array tests each pick out one tag |
| FieldTypes.Partition | libs/enum/src/VsDataConvertFieldTypeEnum.ts:4-25 | every tag is in exactly one of the atomic, array-atomic, object, array-object and array-array groups |
| TreeNodes.IfTruthy | libs/utils/vs/TreeNode.ts:67-70 | `if (x) this.f = x` stores a set, non-empty value and leaves the property unset otherwise |
| TreeNodes.TreeNode.constructor | libs/utils/vs/TreeNode.ts:61-71 | only truthy arguments are stored, the type whenever it is given; children and description start unset |
| TreeNodes.TreeNode.AddChild | libs/utils/vs/TreeNode.ts:110-120 | a null child is refused and changes nothing; otherwise the child list, created on first use, gets the child at its end and the other properties stay |
| TreeNodes.TreeNode.GetChildByName | libs/utils/vs/TreeNode.ts:125-141 | an empty name is refused; otherwise the result is the first child with that field name, and null exactly when there is no list or no child of that name |
| TreeNodes.ChildContainsNameAndCheckDuplicate | libs/utils/vs/TreeNode.ts:81-105 | no list or no child of the name gives false; the first child of the name gives true when its type is the given one and throws a type clash naming the field when it is another |
| TreeNodes.FirstNamedAfterAdd | libs/utils/vs/TreeNode.ts:110-120 | adding a child at the end keeps the first child of each name, and a name that was absent is first found at the new child |
| TreeNodes.FirstNamedUnique | libs/utils/vs/TreeNode.ts:125-141 | at most one child is the first of a name |
| DataConvProps.MappingGrid.constructor | libs/vo/vs/VsDataConvProp.ts:129-137 | a mapping-grid row stores its truthy name and description and its given type |
| DataConvProps.ConvProp.constructor | libs/vo/vs/VsDataConvProp.ts:70-90 | a mapping node stores its truthy name and its given type, starts with shouldConvert false and every other property unset |
| DataConvProps.ConvProp.AddChild | libs/vo/vs/VsDataConvProp.ts:95-105 | a null child is refused and changes nothing; otherwise the child list, created on first use, grows by the child at its end and every other property stays |
| UserLog.BuildEntryFields | apps/vs-run/src/vs-node-user-log/vs-node-user-log.service.ts:68-97 | the entry always carries the four strings; it carries the request time and the zoned creation time only when the zone conversion succeeds, and otherwise both times are the instant it was built |
| UserLog.EnqueueSpec | apps/vs-run/src/vs-node-user-log/vs-node-user-log.service.ts:105-115 | a queue within its bound of 75 000 stays within it; an entry is appended exactly when there is room and dropped exactly when the queue is full, and queued entries are never disturbed |
| UserLog.UserLogService.constructor | apps/vs-run/src/vs-node-user-log/vs-node-user-log.service.ts:50-56 | the service starts with an empty queue, has sent nothing, and is valid |
| UserLog.UserLogService.AddLog | apps/vs-run/src/vs-node-user-log/vs-node-user-log.service.ts:105-115 | the queue becomes the enqueued queue, nothing is sent, and the queue stays first in, first out within its bound |
| UserLog.UserLogService.PersistVsNodeUserLog | apps/vs-run/src/vs-node-user-log/vs-node-user-log.service.ts:68-100 | the built entry, whatever happened while building it, is offered to the queue |
| UserLog.UserLogService.SaveLog | apps/vs-run/src/vs-node-user-log/vs-node-user-log.service.ts:122-155 | an empty queue does nothing; otherwise one batch of up to 7500 entries leaves the head of the queue for the store, in order, and a failed save is only reported and the batch is not put back; the new queue and batches are those of the value-level `Save` |
| UserLog.UserLogService.TakeBatch | apps/vs-run/src/vs-node-user-log/vs-node-user-log.service.ts:128-138 | the shift loop moves exactly the first min(7500, length) entries of the queue into the batch, in order |
| UserLog.FlattenAppend | apps/vs-run/src/vs-node-user-log/vs-node-user-log.service.ts:144-145 | the entries sent after one more batch are the earlier ones followed by the batch |
| UserLog.SavesInOrder | apps/vs-run/src/vs-node-user-log/vs-node-user-log.service.ts:122-155 | after n saveLog runs the store has been handed, after its earlier batches, the first min(length, n * 7500) queued entries in order, and exactly the rest is still queued |
| HttpUtils.Params | libs/utils/http/HttpUtil.ts:204-216 | one `key=value` piece per entry, in order, with `key=` for a null or undefined value |
| HttpUtils.BuildQueryParamStr | libs/utils/http/HttpUtil.ts:204-216 | the query is `?` and the entries joined by `&`, or empty without entries |
| HttpUtils.MakeUrlWithParams | libs/utils/http/HttpUtil.ts:193-196 | the url followed by the parameters' query |
| HttpUtils.JoinEmptyIff | libs/utils/http/HttpUtil.ts:215-216 | pieces that each hold their `=` join to an empty string exactly when there are none |
| HttpUtils.BareUrl | libs/utils/http/HttpUtil.ts:193-216 | the url comes back unchanged exactly when there are no entries, which includes every real `Map` |
| HttpUtils.SplitAfter | libs/utils/http/HttpUtil.ts:215 | a piece free of `&` followed by `&` splits off first |
| HttpUtils.SplitJoin | libs/utils/http/HttpUtil.ts:215 | splitting a join of pieces free of the separator gives the pieces back |
| HttpUtils.SplitNone | libs/utils/http/HttpUtil.ts:215 | text without the separator splits to itself |
| HttpUtils.KeyValueOf | libs/utils/http/HttpUtil.ts:207-212 | a piece `k=v` with no `=` in `k` reads back as `(k, v)` |
| HttpUtils.QueryRoundTrip | libs/utils/http/HttpUtil.ts:193-216 | with no `&` or `=` in a key and no `&` in a value, the query reads back to its entries, null and undefined values as empty strings |
| HttpUtils.AmpersandValueSplits | libs/utils/http/HttpUtil.ts:204-216 | a value holding `&` does not survive: `{a: "1&b=2"}` reads back as two entries |
| ConnPool.AddHeaderSpec | libs/utils/http/AsyncHttpConnPoolUtil.ts:49-56 | addHeader appends the value to the named header's list only, creating it, last in key order, when the header is new |
| ConnPool.AddAllValues | libs/utils/http/AsyncHttpConnPoolUtil.ts:49-56 | after several additions a header's values are its earlier values followed by the added values of that name, in order |
| ConnPool.CombinedSpec | libs/utils/http/AsyncHttpConnPoolUtil.ts:60-71 | getAllHeaders holds exactly the headers other than Set-Cookie, each with its values joined by ", ", in the order the headers were first added |
| ConnPool.SentHeaders | libs/utils/http/AsyncHttpConnPoolUtil.ts:395-424 | a fresh request sends each name other than Set-Cookie that was given at least once, with all its given values in order joined by ", " |
| ConnPool.CombinedPrefix | libs/utils/http/AsyncHttpConnPoolUtil.ts:63-69 | each prefix of the for-in loop has combined exactly the earlier headers other than Set-Cookie |
| ConnPool.Request.constructor | libs/utils/http/AsyncHttpConnPoolUtil.ts:466-500 | each subclass constructor sets the URI and leaves no body and no header |
| ConnPool.Request.SetURI | libs/utils/http/AsyncHttpConnPoolUtil.ts:31-33 | the URI is replaced and the body and headers stay |
| ConnPool.Request.SetEntity | libs/utils/http/AsyncHttpConnPoolUtil.ts:40-42 | the body is replaced and the URI and headers stay |
| ConnPool.Request.AddHeader | libs/utils/http/AsyncHttpConnPoolUtil.ts:49-56 | the header table becomes the table with the header added, and the URI and body stay |
| ConnPool.Request.GetAllHeaders | libs/utils/http/AsyncHttpConnPoolUtil.ts:60-71 | the loop computes the combined header table |
| ConnPool.MethodNames | libs/utils/http/AsyncHttpConnPoolUtil.ts:466-500 | GET-with-entity, PUT and POST requests report GET, PUT and POST |
| ConnPool.AddHeaders | libs/utils/http/AsyncHttpConnPoolUtil.ts:411-413 | the inner loop adds every item of one entry, in order |
| ConnPool.AddAllAppend | libs/utils/http/AsyncHttpConnPoolUtil.ts:410-414 | adding the items of one entry after another is adding them in sequence |
| ConnPool.Execute | libs/utils/http/AsyncHttpConnPoolUtil.ts:395-424 | a truthy body is set, every header item of every entry is added in order, and the configuration holds the method, URI, body, combined headers and the given timeout |
| ConnPool.DoGet | libs/utils/http/AsyncHttpConnPoolUtil.ts:173-185 | a GET of the url with no body, the caller's timeout and the caller's headers combined |
| ConnPool.DoPost | libs/utils/http/AsyncHttpConnPoolUtil.ts:194-207 | a POST of the url carrying a non-empty body, with a timeout of 120 whatever the caller passed |
| ConnPool.DoInternalPost | libs/utils/http/AsyncHttpConnPoolUtil.ts:354-367 | a POST of the url, with the body when truthy, the given timeout and the combined headers |

## Left out

**Runtime and I/O that enter as parameters**
- Database access is not modelled: Prisma and its transactions are replaced by a value store, `AdapterStore.Store`. Lock waits and isolation levels are not modelled. The compile result is written outside the bump transaction, as in the source.
- The transpilation of the generated TypeScript scripts (`ts.transpile` in `compileNodeTaskScript`) is the parameter `CompileEnv`, and turning a stored script back into a task class (`getClass`, through `new Function`) is the parameter `load` of the loader.
- The clock, time-zone conversion, the Cron schedule of the user-log save and the log store's answer are parameters or left out.
- The axios request itself is left out. `ConnPool` ends with the request configuration it would send. The outbound HTTP answers and circuit-breaker states are parameters.
- Logging is left out, including the user-log service's error logging.
- Concurrency is not modelled. Node add is not transactional in the source, and neither is the model.
- Floating point is not modelled: durations and instants are integers of milliseconds.

**Messages and data formats**
- Error messages are short English glosses of the source's messages. They keep the ids and names the message mentions.
- The JSON parsing of node and port properties is not modelled. Properties are given as already-parsed records.
- `AddPortDto.properties` is declared as a string but used as an object; the model takes the object.
- Entity bodies are strings only. Multipart `FormData` and the multipart PUT (`doInternalPut`) are left out.
- `setConfig` of the connection pool is not modelled.
- The date checks of the route types are parameters, standing for `dayjs` and `Date.parse`.
- `getRequestTime`, and the request-time parsing of the node log, are not modelled.
- Name lengths are counted in characters (UTF-16 code units are not modelled).
- Case mapping is ASCII only: `Strs.ToUpper` and `Strs.ToLower` map `a`-`z` and `A`-`Z` and leave every other character alone, whereas `toUpperCase`/`toLowerCase` map all of Unicode. This affects `RunController.VsHttpMethod`, `RunController.VsHttpMethodSpec` and the case-insensitive header tests of `RequestHeaders` and `RunController` only for non-ASCII method or header names.

**JavaScript semantics**
- `Object.entries` yields entries in the order given. The model does not place integer-like keys first, as `for…in` does.
- Name collisions with `Map.prototype` members are not modelled.
- A null name is modelled only as the empty string.
- The two field-type enum files declare the same members and share one datatype.
- The adapter's DTO enum file is empty. Of the class-validator decorators, only those of the HTTP section are modelled.
- The code-generation fields of `TreeNode` and `VsDataConvProp` (the variable names and type strings they keep for generated code), their parent links and their `toString` are left out.

**Operations not modelled**
- `NodeService.update` (`node.service.ts:356-366`) writes one column and is not modelled.
- Several link-service and port-service members only return placeholder strings and are not modelled: `findAll`, `findOne`, `update`, `remove` and the port service's `create`.
- `detailQuery` of the project service is not modelled.
- `getQueue` of the user-log service is not modelled.
- `toString` and `getActiveTaskCount` of the execution context are not modelled.
- `getGeneralDataConvMappingMap`, `setDataConvRT` and `setCtx` of the flow task are not modelled.
- The plain getters of the runtime classes are not modelled.

**Source behaviour noted but not modelled further**
- `setPropWhenContextHttpComponent` does nothing in the source, and nothing in the model.
- The empty-link check of makeRtFlow (`links.size === 0` on the flow's link Set, `flow-node.util.ts:1606-1609`) is modelled but can never throw: getNodeIdsMap, which runs first, already fails on a graph without links (`RuntimeFlow.NodeIdsNonEmpty`).
- Port modify computes a route script but never stores it.
- The POST template calls `doPost` with misaligned arguments. `ConnPool.DoPost` ignores its timeout, as the source does.
- The rethrow in `executeCompileTask`, and a rejected `compileNodeTaskScript`, are unhandled in the source. The model ends in the failure.
- Prisma skips an undefined `method` column, and the model keeps the stored value. `compileVersion` starts at 0. New ids are the maximum plus one.

**Naming and helpers**
- The adapter DTO field `method` is called `httpMethod`, because `method` is a Dafny keyword.
- The helper modules `OrderedMaps`, `Wrappers` and `Strs` get no rows, except `Strs.ReplaceFirstSpec` and `Strs.TrimEmptyIffBlank`.

**Weakened contracts**
- RunController.DefinedValues: getSystemHeader (`vs-run.controller.ts:87-92`) puts all four system header names into `responseHeader`, with `undefined` as the value of a header the request did not send. The model keeps only the names with a value, so a name whose value is undefined is absent. `has`, `size` and iteration over the response headers therefore differ from the source when a system header is missing.
- RunController.RunFlow: the controller calls `curNode.call()` without `await` (`vs-run.controller.ts:391`). The model keeps the consequence that a call's failure never stops the walk, and the walk reads the activated child whatever the call's outcome. It treats every call as done by the time the walk reads its outputs, though. In the source, an overriding `call` that reaches an `await` finishes only after the walk has moved on, so the walk sees the outputs and activation the call had set before that point. A rejected call is an unhandled promise rejection, and that is not modelled.
- NodeService.SortBySpec: `Array.prototype.sort` is modelled as a stable insertion sort, and its contract states order and permutation only, not the comparator calls made.

## Findings

| source | as written | input that shows it | evidently intended | confidence | as-written member | corrected member |
|---|---|---|---|---|---|---|
| apps/vs-run/src/vs-project/vs-project.service.ts:422 | the breaker configuration is parsed through `this.jacksonUtil`, a member the service neither declares nor injects, so loading a project whose HTTP node has a configured output port throws a type error | a project with one HTTP node whose single output port carries non-blank properties | the properties are parsed and the node gets its circuit breaker | not executed | `VsProject.ParseAsWritten` (shown by `VsProject.ConfiguredHttpNodeThrowsAsWritten`) | `VsProject.Breakers` over a working `parse` parameter, which the loader uses (`VsProject.ConfiguredHttpNodeGetsBreaker`, `VsProject.BreakersSpec`) |
| apps/vs-adapter/src/link/link.service.ts:58 | `req.sourceId = node.id` assigns instead of comparing, so every node passes the test: the start node is the last node read and `req.sourceId` is overwritten with its id | a link from node s to node t, with the nodes read in the order s, t: both endpoints resolve to t | the start node is the node whose id is the link's source id | not executed | `LinkService.PickAsWritten` (shown by `LinkService.PickAsWrittenTakesLast`, `LinkService.PickAsWrittenSelfLoop`) | `LinkService.PickOf` (`LinkService.PickSpec`, `LinkService.PickEndpoints`) |
| apps/vs-adapter/src/port/port.service.ts:65 | the end-node test compares a node's view type with COMPOSITE_END, which is a task type, so a COMPOSITE_END node passes the test | adding an OUTPUT port to a COMPOSITE_END node | an OUTPUT port is refused on END and COMPOSITE_END nodes alike | not executed | `PortService.IsEndNodeAsWritten` (shown by `PortService.EndTestAsWritten`, `PortService.CompositeEndOutputPort`) | `PortService.IsEndNode` (`PortService.EndTestAsWritten`, `PortService.AddSpec`) |
| apps/vs-adapter/src/port/port.service.ts:92 | `req.toVsPort()` is called on the request body, a plain object without that method, so every add throws before the insert | any add-port request | the DTO is converted to a port row and inserted | not executed | `PortService.AddStepAsWritten` (shown by `PortService.AddAsWrittenNeverAdds`) | `PortService.AddStep` (`PortService.AddSpec`) |
| apps/vs-adapter/src/node/node.service.ts:257 | the ports are sorted by `properties.order` of the raw rows, whose properties are still JSON text, so every comparison is NaN and the store order stays | a node whose ports have orders 2 and 1, stored in that order | the ports are ordered by their `order` | not executed | `NodeService.RawSortedPortsAsWritten` (shown by `NodeService.RawSortKeepsStoreOrder`) | `NodeService.RawSortedPorts` (`NodeService.RawSortSpec`) |
| apps/vs-adapter/src/project/project.service.ts:459-466 | getUpdateRecord walks `Object.entries` of an unawaited promise, which has no own entries, so compilation records no script or artifact update | any compile of a project with at least one node | each node's generated script and compiled artifact is recorded | not executed | `ProjectService.UpdateRecordsAsWritten` (shown by `ProjectService.UpdateRecordsAsWrittenIgnoresArtifacts`) | `ProjectService.UpdateRecords` (`ProjectService.UpdateRecordsSpec`) |
| apps/vs-adapter/src/project/project.service.ts:317 | the version bump relies on `updateMany` throwing when the compare-and-set misses, but it reports zero rows instead, so a lost race counts as success | a bump whose first attempt loses its race to a concurrent compile | a lost race retries, and the bump fails after ten lost attempts | not executed | `ProjectService.BumpAsWritten` (shown by `ProjectService.BumpAsWrittenLosesRace`) | `ProjectService.BumpFrom` (`ProjectService.BumpSpec`) |
