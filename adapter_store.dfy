// The editor's store as the adapter services (apps/vs-adapter/src/project,
// node, port and link) read and write it: the t_vs_project, t_vs_node,
// t_vs_port and t_vs_link tables, each a list of rows in store order.  A
// JSON `properties` column is kept as the object it encodes; `findMany` is a
// filter, `findUnique` the row with the given key, `count` the length of a
// filter, and `create`/`update` fail the way the database does on a taken or
// a missing key.

module AdapterStore {
  import opened Wrappers
  import opened Enums
  import PortProps

  /** VsCompileResultProp: the outcome of the latest compile request. */
  datatype CompileResult = CompileResult(requestCompileTime: int, status: CompileStatus, msg: Option<string>)

  /** The parsed `properties` column of a project: its compileResult key
      (`None` when null or absent) and every other key, kept as text. */
  datatype ProjectProps = ProjectProps(compileResult: Option<CompileResult>, others: map<string, string>)

  /** A t_vs_project row; `properties` is `None` when the column is null or
      empty. */
  datatype ProjectRow = ProjectRow(
    id: int,
    name: string,
    description: Option<string>,
    state: ProjectState,
    contextPath: Option<string>,
    httpMethod: Option<string>,
    compileVersion: int,
    properties: Option<ProjectProps>)

  /** The parsed `properties` column of a node: its name, the other keys as
      text. */
  datatype NodeProps = NodeProps(name: Option<string>, others: map<string, string>)

  /** A t_vs_node row. */
  datatype NodeRow = NodeRow(
    id: string,
    projectId: int,
    taskType: TaskType,
    viewType: ViewType,
    upLevelNodeId: string,
    properties: NodeProps,
    script: string,
    classBytes: seq<int>)

  /** A t_vs_port row. */
  datatype PortRow = PortRow(
    id: string,
    projectId: int,
    nodeId: string,
    portType: PortType,
    properties: PortProps.VsPortProp)

  /** A t_vs_link row. */
  datatype LinkRow = LinkRow(
    id: string,
    projectId: int,
    sourceId: string,
    sourcePort: string,
    targetId: string,
    targetPort: string)

  /** The parent id of a node on the top layer of the editor's graph. */
  const TopLevel := "-1"

  /** The four tables at one moment. */
  datatype Db = Db(projects: seq<ProjectRow>, nodes: seq<NodeRow>, ports: seq<PortRow>, links: seq<LinkRow>)

  /** What a service operation ends with and the tables after it. */
  datatype Step = Step(outcome: Outcome, db: Db)

  /** The failure of a `create` whose key is taken (a unique-constraint
      violation) and of an `update` whose key is missing. */
  const KeyTaken := "unique constraint failed"
  const RecordMissing := "record to update not found"

  // ---------------------------------------------------------------------------
  // Queries

  /** `findMany`: the rows that satisfy the condition, in store order. */
  function Filter<T>(xs: seq<T>, p: T -> bool): seq<T>
    decreases |xs|
  {
    if |xs| == 0 then []
    else Filter(xs[..|xs| - 1], p) + (if p(xs[|xs| - 1]) then [xs[|xs| - 1]] else [])
  }

  /** A filter keeps exactly the rows that satisfy the condition, and is no
      longer than the table. */
  lemma {:induction false} FilterMembers<T>(xs: seq<T>, p: T -> bool)
    ensures |Filter(xs, p)| <= |xs|
    ensures forall x :: x in Filter(xs, p) <==> x in xs && p(x)
    decreases |xs|
  {
    if |xs| > 0 {
      var init := xs[..|xs| - 1];
      FilterMembers(init, p);
      assert xs == init + [xs[|xs| - 1]];
    }
  }

  /** One more row of a filter loop. */
  lemma FilterStep<T>(xs: seq<T>, p: T -> bool, k: nat)
    requires k < |xs|
    ensures Filter(xs[..k + 1], p) == Filter(xs[..k], p) + (if p(xs[k]) then [xs[k]] else [])
  {
    assert xs[..k + 1][..k] == xs[..k];
  }

  /** `findUnique` on a key column: the first row with the key. */
  function First<T>(xs: seq<T>, p: T -> bool): (r: Option<T>)
    ensures r.Some? ==> r.value in xs && p(r.value)
    ensures r.None? ==> forall i :: 0 <= i < |xs| ==> !p(xs[i])
    decreases |xs|
  {
    if |xs| == 0 then None
    else if p(xs[0]) then Some(xs[0])
    else First(xs[1..], p)
  }

  /** `update` where the key matches: every such row replaced by `f` of it;
      the table keeps its length and order. */
  function Update<T>(xs: seq<T>, p: T -> bool, f: T -> T): (r: seq<T>)
    ensures |r| == |xs|
    ensures forall i :: 0 <= i < |xs| ==> r[i] == (if p(xs[i]) then f(xs[i]) else xs[i])
  {
    seq(|xs|, i requires 0 <= i < |xs| => if p(xs[i]) then f(xs[i]) else xs[i])
  }

  function ProjectById(db: Db, id: int): Option<ProjectRow>
  {
    First(db.projects, (r: ProjectRow) => r.id == id)
  }

  function NodeById(db: Db, id: string): Option<NodeRow>
  {
    First(db.nodes, (r: NodeRow) => r.id == id)
  }

  function PortById(db: Db, id: string): Option<PortRow>
  {
    First(db.ports, (r: PortRow) => r.id == id)
  }

  predicate HasProject(db: Db, id: int) { exists i :: 0 <= i < |db.projects| && db.projects[i].id == id }
  predicate HasNode(db: Db, id: string) { exists i :: 0 <= i < |db.nodes| && db.nodes[i].id == id }
  predicate HasPort(db: Db, id: string) { exists i :: 0 <= i < |db.ports| && db.ports[i].id == id }
  predicate HasLink(db: Db, id: string) { exists i :: 0 <= i < |db.links| && db.links[i].id == id }

  /** The store: the four tables, each replaced as a whole by the services. */
  class Store {
    var projects: seq<ProjectRow>
    var nodes: seq<NodeRow>
    var ports: seq<PortRow>
    var links: seq<LinkRow>

    function State(): Db
      reads this
    {
      Db(projects, nodes, ports, links)
    }

    constructor (db: Db)
      ensures State() == db
    {
      projects := db.projects;
      nodes := db.nodes;
      ports := db.ports;
      links := db.links;
    }
  }
}
