// The adapter's project service (apps/vs-adapter/src/project/project.service.ts):
// creating a project, and compiling one.  A compile request records
// COMPILING and submits a background task; the task reads the project's
// links, ports and nodes, turns them into one script and one artifact per
// node, stores those on the nodes and bumps the project's compile version
// inside one transaction, and records the outcome in the project's
// `properties.compileResult`.
//
// The script generation itself is the flow compiler of the NodeScripts and
// Topology modules.  Here its result, the transpiler's output (each script
// is TypeScript, transpiled with `ts.transpile`), whether the reading
// transaction succeeds and whether each version bump loses a race against
// another writer enter as a `CompileEnv`.

module ProjectService {
  import opened Wrappers
  import opened Enums
  import opened AdapterStore

  // ---------------------------------------------------------------------------
  // Messages (English glosses of the source's texts)

  const NameTaken := "project name already exists"
  const ProjectChanged := "data has changed, refresh and retry"
  const ProjectOnline := "project is online, take it offline before compiling"
  const QueryFailedMsg := "compile task failed, please resubmit"
  const SuccessMsg := "success"
  const ConflictMsg := "someone else updated this project, refresh and resubmit"
  const ProjectNotFound := "Project not found"
  const RetriesExhausted := "Update failed after retries"
  const EmptyArtifact := "the node's script or bytecode is empty"

  /** How many read-then-conditional-update attempts the version bump makes. */
  const Retry := 10

  // ---------------------------------------------------------------------------
  // add

  datatype ProjectAddReq = ProjectAddReq(name: string, description: Option<string>)

  /** What `add` returns and the tables after it. */
  datatype Added = Added(result: Result<ProjectRow>, db: Db)

  /** The largest project id in the table (0 when it is empty). */
  function MaxId(ps: seq<ProjectRow>): (m: int)
    ensures m >= 0
    ensures forall i :: 0 <= i < |ps| ==> ps[i].id <= m
    decreases |ps|
  {
    if |ps| == 0 then 0
    else
      var m := MaxId(ps[..|ps| - 1]);
      if ps[|ps| - 1].id > m then ps[|ps| - 1].id else m
  }

  /** The key the auto-increment column hands out next. */
  function NextId(db: Db): int
  {
    MaxId(db.projects) + 1
  }

  /** The projects with the given name. */
  function ProjectsNamed(db: Db, name: string): seq<ProjectRow>
  {
    Filter(db.projects, (r: ProjectRow) => r.name == name)
  }

  /** The row `add` creates: OFFLINE, with `{"compileResult": null}` as its
      properties and the column defaults elsewhere. */
  function NewProject(id: int, req: ProjectAddReq): ProjectRow
  {
    ProjectRow(id, req.name, req.description, Offline, None, None, 0, Some(ProjectProps(None, map[])))
  }

  function AddStep(db: Db, req: ProjectAddReq): Added
  {
    if |ProjectsNamed(db, req.name)| > 0 then
      Added(Fail(Failure(Unauthorized, NameTaken, [req.name])), db)
    else
      var row := NewProject(NextId(db), req);
      Added(Ok(row), db.(projects := db.projects + [row]))
  }

  /** A taken name is rejected and nothing is written; otherwise one OFFLINE
      project under a fresh id, with no compile result, is appended. */
  lemma AddSpec(db: Db, req: ProjectAddReq)
    ensures var a := AddStep(db, req);
      (a.result.Ok? <==> forall i :: 0 <= i < |db.projects| ==> db.projects[i].name != req.name)
      && (a.result.Fail? ==> a.result.failure.kind == Unauthorized && a.db == db)
      && (a.result.Ok? ==>
            var row := a.result.value;
            && a.db == db.(projects := db.projects + [row])
            && row.name == req.name && row.description == req.description
            && row.state == Offline
            && row.properties == Some(ProjectProps(None, map[]))
            && !HasProject(db, row.id))
  {
    FilterMembers(db.projects, (r: ProjectRow) => r.name == req.name);
    if |ProjectsNamed(db, req.name)| > 0 {
      var x := ProjectsNamed(db, req.name)[0];
      assert x in ProjectsNamed(db, req.name);
      var i :| 0 <= i < |db.projects| && db.projects[i] == x;
      assert db.projects[i].name == req.name;
    } else {
      forall i | 0 <= i < |db.projects| ensures db.projects[i].name != req.name {
        assert db.projects[i] in db.projects;
      }
    }
  }

  predicate NamesUnique(db: Db)
  {
    forall i, j :: 0 <= i < j < |db.projects| ==> db.projects[i].name != db.projects[j].name
  }

  predicate IdsUnique(db: Db)
  {
    forall i, j :: 0 <= i < j < |db.projects| ==> db.projects[i].id != db.projects[j].id
  }

  /** `add` keeps project names and project ids unique. */
  lemma AddKeepsUnique(db: Db, req: ProjectAddReq)
    requires NamesUnique(db) && IdsUnique(db)
    ensures NamesUnique(AddStep(db, req).db) && IdsUnique(AddStep(db, req).db)
  {
    AddSpec(db, req);
  }

  // ---------------------------------------------------------------------------
  // updateCompileResult

  /** The properties object with its compileResult key set and every other key
      kept; a null or empty column starts from `{}`. */
  function WithCompileResult(props: Option<ProjectProps>, c: CompileResult): ProjectProps
  {
    ProjectProps(Some(c), if props.Some? then props.value.others else map[])
  }

  /** updateCompileResult: read the project's properties, replace the
      compileResult key, write them back; an update of a missing row throws. */
  function RecordCompileResult(db: Db, id: int, c: CompileResult): Step
  {
    match ProjectById(db, id)
    case None => Step(Throw(Failure(Generic, RecordMissing, [])), db)
    case Some(row) =>
      Step(Pass, db.(projects := Update(db.projects, (r: ProjectRow) => r.id == id,
                                        (r: ProjectRow) => r.(properties := Some(WithCompileResult(row.properties, c))))))
  }

  /** updateCompileResult passes exactly when the project exists; it then
      changes only that project's properties, where it sets the compile result
      and keeps every other key, and a failure writes nothing. */
  lemma RecordCompileResultSpec(db: Db, id: int, c: CompileResult)
    ensures var s := RecordCompileResult(db, id, c);
      (s.outcome.Pass? <==> HasProject(db, id))
      && (s.outcome.Throw? ==> s.db == db && s.outcome.failure.kind == Generic)
      && (s.outcome.Pass? ==>
            && s.db.nodes == db.nodes && s.db.ports == db.ports && s.db.links == db.links
            && |s.db.projects| == |db.projects|
            && forall i :: 0 <= i < |db.projects| ==>
                 (if db.projects[i].id == id
                  then s.db.projects[i] == db.projects[i].(properties := s.db.projects[i].properties)
                       && s.db.projects[i].properties.Some?
                       && s.db.projects[i].properties.value.compileResult == Some(c)
                       && s.db.projects[i].properties.value.others
                          == (if ProjectById(db, id).value.properties.Some?
                              then ProjectById(db, id).value.properties.value.others else map[])
                  else s.db.projects[i] == db.projects[i]))
  {
  }

  /** The compile result a project's row holds, if any. */
  function CompileResultOf(db: Db, id: int): Option<CompileResult>
  {
    match ProjectById(db, id)
    case None => None
    case Some(row) => if row.properties.Some? then row.properties.value.compileResult else None
  }

  /** After a successful updateCompileResult the project reports that result. */
  lemma RecordCompileResultReads(db: Db, id: int, c: CompileResult)
    requires RecordCompileResult(db, id, c).outcome.Pass?
    ensures CompileResultOf(RecordCompileResult(db, id, c).db, id) == Some(c)
    ensures ProjectById(RecordCompileResult(db, id, c).db, id).value.compileVersion
            == ProjectById(db, id).value.compileVersion
  {
    RecordCompileResultSpec(db, id, c);
    FirstAfterUpdate(db.projects, id, (r: ProjectRow) => r.(properties := Some(WithCompileResult(ProjectById(db, id).value.properties, c))));
  }

  /** The first row with a key, after an update of the rows with that key that
      keeps the key, is the update of the first row with it. */
  lemma {:induction false} FirstAfterUpdate(xs: seq<ProjectRow>, id: int, f: ProjectRow -> ProjectRow)
    requires forall r: ProjectRow :: f(r).id == r.id
    requires First(xs, (r: ProjectRow) => r.id == id).Some?
    ensures First(Update(xs, (r: ProjectRow) => r.id == id, f), (r: ProjectRow) => r.id == id)
            == Some(f(First(xs, (r: ProjectRow) => r.id == id).value))
    decreases |xs|
  {
    var ys := Update(xs, (r: ProjectRow) => r.id == id, f);
    if xs[0].id != id {
      assert Update(xs[1..], (r: ProjectRow) => r.id == id, f) == ys[1..];
      FirstAfterUpdate(xs[1..], id, f);
    }
  }

  // ---------------------------------------------------------------------------
  // compile

  function CompileStep(db: Db, id: int, now: int): Step
  {
    match ProjectById(db, id)
    case None => Step(Throw(Failure(BadRequest, ProjectChanged, [])), db)
    case Some(prj) =>
      if prj.state == Online then Step(Throw(Failure(BadRequest, ProjectOnline, [])), db)
      else RecordCompileResult(db, id, CompileResult(now, Compiling, None))
  }

  /** compile rejects a missing or ONLINE project and writes nothing then;
      otherwise it records COMPILING with the request time and nothing else. */
  lemma CompileSpec(db: Db, id: int, now: int)
    ensures var s := CompileStep(db, id, now);
      (s.outcome.Pass? <==> ProjectById(db, id).Some? && ProjectById(db, id).value.state != Online)
      && (s.outcome.Throw? ==> s.db == db && s.outcome.failure.kind == BadRequest)
      && (s.outcome.Pass? ==>
            && CompileResultOf(s.db, id) == Some(CompileResult(now, Compiling, None))
            && s.db.nodes == db.nodes)
  {
    if ProjectById(db, id).Some? {
      var c := CompileResult(now, Compiling, None);
      RecordCompileResultSpec(db, id, c);
      if ProjectById(db, id).value.state != Online {
        RecordCompileResultReads(db, id, c);
      }
    }
  }

  // ---------------------------------------------------------------------------
  // getUpdateRecord

  /** One entry of the compiled map: a node id and its artifact. */
  datatype Compiled = Compiled(nodeId: string, classBytes: seq<int>)

  /** What the compile task cannot compute from the tables alone. */
  datatype CompileEnv = CompileEnv(
    queryOk: bool,                      // the reading transaction succeeds
    scripts: Result<map<string, string>>, // the flow compiler's scripts per node, or what it throws
    compiled: Result<seq<Compiled>>,    // the transpiled scripts in map order, or what it throws
    lostRaces: seq<bool>)               // per bump attempt: the version changed between read and update

  /** A node's new script and artifact. */
  datatype NodeUpdate = NodeUpdate(id: string, script: string, classBytes: seq<int>)

  /** The name `nodeId2NodeName.get(id)` yields: the name of the last node read
      with that id, printed as "undefined" when absent. */
  function NodeName(nodes: seq<NodeRow>, id: string): string
    decreases |nodes|
  {
    if |nodes| == 0 then "undefined"
    else if nodes[|nodes| - 1].id == id then nodes[|nodes| - 1].properties.name.GetOr("undefined")
    else NodeName(nodes[..|nodes| - 1], id)
  }

  /** One record: the node's script and artifact, both of which must be
      non-empty. */
  function RecordOf(scripts: map<string, string>, nodes: seq<NodeRow>, e: Compiled): Result<NodeUpdate>
  {
    if e.nodeId !in scripts || scripts[e.nodeId] == "" || |e.classBytes| == 0 then
      Fail(Failure(BadRequest, EmptyArtifact, [NodeName(nodes, e.nodeId)]))
    else Ok(NodeUpdate(e.nodeId, scripts[e.nodeId], e.classBytes))
  }

  /** The records for every compiled entry, in order, or the failure of the
      first entry with an empty script or artifact. */
  function UpdateRecords(nodes: seq<NodeRow>, env: CompileEnv): Result<seq<NodeUpdate>>
  {
    match env.scripts
    case Fail(f) => Fail(f)
    case Ok(scripts) =>
      match env.compiled
      case Fail(f) => Fail(f)
      case Ok(compiled) => MapAll(compiled, (e: Compiled) => RecordOf(scripts, nodes, e))
  }

  /** getUpdateRecord as written: it walks `Object.entries` of the promise that
      the unawaited `compileNodeTaskScript` returns, which has no entries (nor
      would the Map it resolves to), so once the scripts are made the list is
      empty. */
  function UpdateRecordsAsWritten(nodes: seq<NodeRow>, env: CompileEnv): Result<seq<NodeUpdate>>
  {
    match env.scripts
    case Fail(f) => Fail(f)
    case Ok(_) => Ok([])
  }

  /** The records pass exactly when every compiled node has a non-empty script
      and a non-empty artifact; each record then carries them, in map order,
      and otherwise a BadRequest names an offending node. */
  lemma UpdateRecordsSpec(nodes: seq<NodeRow>, scripts: map<string, string>, compiled: seq<Compiled>)
    ensures var r := UpdateRecords(nodes, CompileEnv(true, Ok(scripts), Ok(compiled), []));
      (r.Ok? <==> forall i :: 0 <= i < |compiled| ==>
                    compiled[i].nodeId in scripts && scripts[compiled[i].nodeId] != ""
                    && |compiled[i].classBytes| > 0)
      && (r.Ok? ==> |r.value| == |compiled|
                    && forall i :: 0 <= i < |compiled| ==>
                         r.value[i] == NodeUpdate(compiled[i].nodeId, scripts[compiled[i].nodeId], compiled[i].classBytes))
      && (r.Fail? ==> exists i :: 0 <= i < |compiled|
                         && r.failure == Failure(BadRequest, EmptyArtifact, [NodeName(nodes, compiled[i].nodeId)]))
  {
    var f := (e: Compiled) => RecordOf(scripts, nodes, e);
    if forall i :: 0 <= i < |compiled| ==> f(compiled[i]).Ok? {
      MapAllOk(compiled, f);
      MapAllOkValues(compiled, f);
    } else {
      var i :| 0 <= i < |compiled| && f(compiled[i]).Fail?;
      if MapAll(compiled, f).Ok? {
        MapAllOkValues(compiled, f);
        assert false;
      }
      MapAllFail(compiled, f);
    }
  }

  /** The as-written list ignores the artifacts: a node whose script and
      artifact are both empty is not rejected, and no node is updated. */
  lemma UpdateRecordsAsWrittenIgnoresArtifacts()
    ensures var env := CompileEnv(true, Ok(map["n" := ""]), Ok([Compiled("n", [])]), []);
      && UpdateRecordsAsWritten([], env) == Ok([])
      && UpdateRecords([], env) == Fail(Failure(BadRequest, EmptyArtifact, ["undefined"]))
  {
    var f := (e: Compiled) => RecordOf(map["n" := ""], [], e);
    assert [Compiled("n", [])][..0] == [];
    assert MapAll([Compiled("n", [])], f) == Fail(Failure(BadRequest, EmptyArtifact, ["undefined"]));
  }

  /** getUpdateRecord's loop: one record per compiled entry, stopping at the
      first empty script or artifact. */
  method GetUpdateRecord(nodes: seq<NodeRow>, scripts: map<string, string>, compiled: seq<Compiled>)
    returns (r: Result<seq<NodeUpdate>>)
    ensures r == UpdateRecords(nodes, CompileEnv(true, Ok(scripts), Ok(compiled), []))
  {
    var f := (e: Compiled) => RecordOf(scripts, nodes, e);
    var updateRecord: seq<NodeUpdate> := [];
    for k := 0 to |compiled|
      invariant MapAll(compiled[..k], f) == Ok(updateRecord)
    {
      MapAllStep(compiled, f, k, updateRecord);
      var e := compiled[k];
      if e.nodeId !in scripts || scripts[e.nodeId] == "" || |e.classBytes| == 0 {
        MapAllFailSticks(compiled, f, k + 1);
        return Fail(Failure(BadRequest, EmptyArtifact, [NodeName(nodes, e.nodeId)]));
      }
      updateRecord := updateRecord + [NodeUpdate(e.nodeId, scripts[e.nodeId], e.classBytes)];
    }
    assert compiled[..|compiled|] == compiled;
    return Ok(updateRecord);
  }

  // ---------------------------------------------------------------------------
  // Storing the records

  /** One node update: the rows with the id get the script and the artifact. */
  function Patch(n: NodeRow, u: NodeUpdate): NodeRow
  {
    if n.id == u.id then n.(script := u.script, classBytes := u.classBytes) else n
  }

  /** `tx.t_vs_node.update` for each record in turn; an update of a missing
      node throws. */
  function ApplyUpdates(db: Db, records: seq<NodeUpdate>): Result<Db>
    decreases |records|
  {
    if |records| == 0 then Ok(db)
    else
      match ApplyUpdates(db, records[..|records| - 1])
      case Fail(f) => Fail(f)
      case Ok(d) =>
        var u := records[|records| - 1];
        if HasNode(d, u.id) then Ok(d.(nodes := seq(|d.nodes|, i requires 0 <= i < |d.nodes| => Patch(d.nodes[i], u))))
        else Fail(Failure(Generic, RecordMissing, [u.id]))
  }

  /** A node row after every record that names it, the last one winning. */
  function Patched(n: NodeRow, records: seq<NodeUpdate>): NodeRow
    decreases |records|
  {
    if |records| == 0 then n else Patch(Patched(n, records[..|records| - 1]), records[|records| - 1])
  }

  /** Storing the records passes exactly when every record names a node of
      the table. */
  lemma {:induction false} ApplyUpdatesOk(db: Db, records: seq<NodeUpdate>)
    ensures ApplyUpdates(db, records).Ok? <==> forall k :: 0 <= k < |records| ==> HasNode(db, records[k].id)
    decreases |records|
  {
    if |records| > 0 {
      var init := records[..|records| - 1];
      var u := records[|records| - 1];
      ApplyUpdatesOk(db, init);
      assert forall k :: 0 <= k < |init| ==> init[k] == records[k];
      if ApplyUpdates(db, init).Ok? {
        ApplyUpdatesValue(db, init);
        var d := ApplyUpdates(db, init).value;
        assert forall i :: 0 <= i < |d.nodes| ==> d.nodes[i].id == db.nodes[i].id by {
          forall i | 0 <= i < |d.nodes| ensures d.nodes[i].id == db.nodes[i].id {
            PatchedKeepsId(db.nodes[i], init);
          }
        }
        assert HasNode(d, u.id) <==> HasNode(db, u.id);
      } else {
        var k :| 0 <= k < |init| && !HasNode(db, init[k].id);
        assert !HasNode(db, records[k].id);
      }
    }
  }

  /** Stored records change only the nodes, each row patched by the records
      that name it. */
  lemma {:induction false} ApplyUpdatesValue(db: Db, records: seq<NodeUpdate>)
    requires ApplyUpdates(db, records).Ok?
    ensures ApplyUpdates(db, records).value
            == db.(nodes := seq(|db.nodes|, i requires 0 <= i < |db.nodes| => Patched(db.nodes[i], records)))
    decreases |records|
  {
    if |records| > 0 {
      ApplyUpdatesValue(db, records[..|records| - 1]);
    }
  }

  lemma {:induction false} PatchedKeepsId(n: NodeRow, records: seq<NodeUpdate>)
    ensures Patched(n, records).id == n.id
    ensures Patched(n, records).projectId == n.projectId && Patched(n, records).properties == n.properties
    decreases |records|
  {
    if |records| > 0 {
      PatchedKeepsId(n, records[..|records| - 1]);
    }
  }

  /** With distinct record ids, a node named by a record ends with that
      record's script and artifact, and a node named by none is unchanged. */
  lemma {:induction false} PatchedDistinct(n: NodeRow, records: seq<NodeUpdate>)
    requires forall a, b :: 0 <= a < b < |records| ==> records[a].id != records[b].id
    ensures forall k :: 0 <= k < |records| && records[k].id == n.id ==>
              Patched(n, records) == n.(script := records[k].script, classBytes := records[k].classBytes)
    ensures (forall k :: 0 <= k < |records| ==> records[k].id != n.id) ==> Patched(n, records) == n
    decreases |records|
  {
    if |records| > 0 {
      var init := records[..|records| - 1];
      var last := records[|records| - 1];
      PatchedDistinct(n, init);
      PatchedKeepsId(n, init);
      forall k | 0 <= k < |records| && records[k].id == n.id
        ensures Patched(n, records) == n.(script := records[k].script, classBytes := records[k].classBytes)
      {
        if k < |records| - 1 {
          assert init[k] == records[k];
          assert last.id != n.id;
        }
      }
      if forall k :: 0 <= k < |records| ==> records[k].id != n.id {
        assert forall k :: 0 <= k < |init| ==> init[k] == records[k];
      }
    }
  }

  /** Storing the records leaves the other tables as they were. */
  lemma {:induction false} ApplyKeepsProjects(db: Db, records: seq<NodeUpdate>)
    requires ApplyUpdates(db, records).Ok?
    ensures var d := ApplyUpdates(db, records).value;
      d.projects == db.projects && d.ports == db.ports && d.links == db.links && |d.nodes| == |db.nodes|
    decreases |records|
  {
    if |records| > 0 {
      ApplyKeepsProjects(db, records[..|records| - 1]);
    }
  }

  lemma ApplyStep(db: Db, records: seq<NodeUpdate>, k: nat, d: Db)
    requires k < |records| && ApplyUpdates(db, records[..k]) == Ok(d)
    ensures ApplyUpdates(db, records[..k + 1])
            == if HasNode(d, records[k].id)
               then Ok(d.(nodes := seq(|d.nodes|, i requires 0 <= i < |d.nodes| => Patch(d.nodes[i], records[k]))))
               else Fail(Failure(Generic, RecordMissing, [records[k].id]))
  {
    assert records[..k + 1][..k] == records[..k];
  }

  lemma {:induction false} ApplyFailSticks(db: Db, records: seq<NodeUpdate>, k: nat)
    requires k <= |records| && ApplyUpdates(db, records[..k]).Fail?
    ensures ApplyUpdates(db, records) == ApplyUpdates(db, records[..k])
    decreases |records| - k
  {
    if k < |records| {
      assert records[..k + 1][..k] == records[..k];
      ApplyFailSticks(db, records, k + 1);
    } else {
      assert records[..k] == records;
    }
  }

  // ---------------------------------------------------------------------------
  // The version bump

  /** How the bump loop ends: the tables with the version bumped, the project
      gone, or every attempt lost. */
  datatype Bump = Bumped(db: Db) | Missing | Exhausted

  /** Whether attempt `i` loses its race (the conditional update matches no
      row because the version changed since it was read). */
  predicate Lost(races: seq<bool>, i: nat)
  {
    i < |races| && races[i]
  }

  function SetVersion(db: Db, id: int, v: int): Db
  {
    db.(projects := Update(db.projects, (r: ProjectRow) => r.id == id, (r: ProjectRow) => r.(compileVersion := v)))
  }

  /** The bump from attempt `i` on: read the version, update where it still
      holds, and retry a lost race while attempts remain. */
  function BumpFrom(db: Db, id: int, races: seq<bool>, i: nat): Bump
    decreases Retry - i
  {
    if i >= Retry then Exhausted
    else
      match ProjectById(db, id)
      case None => Missing
      case Some(p) =>
        if Lost(races, i) then BumpFrom(db, id, races, i + 1)
        else Bumped(SetVersion(db, id, p.compileVersion + 1))
  }

  /** The bump as written: `updateMany` returns a count of zero instead of
      throwing when the version no longer matches, so the first attempt always
      counts as a success and a lost race leaves the version as it was. */
  function BumpAsWritten(db: Db, id: int, races: seq<bool>): Bump
  {
    match ProjectById(db, id)
    case None => Missing
    case Some(p) => if Lost(races, 0) then Bumped(db) else Bumped(SetVersion(db, id, p.compileVersion + 1))
  }

  /** The bump needs the project; it succeeds exactly when one of the ten
      attempts does not lose its race, and then it raises the version by one
      and changes nothing else. */
  lemma {:induction false} BumpSpec(db: Db, id: int, races: seq<bool>, i: nat)
    requires i <= Retry
    ensures BumpFrom(db, id, races, i).Missing? <==> i < Retry && ProjectById(db, id).None?
    ensures BumpFrom(db, id, races, i).Bumped? <==>
              ProjectById(db, id).Some? && exists j :: i <= j < Retry && !Lost(races, j)
    ensures BumpFrom(db, id, races, i).Bumped? ==>
              BumpFrom(db, id, races, i).db
              == SetVersion(db, id, ProjectById(db, id).value.compileVersion + 1)
    decreases Retry - i
  {
    if i < Retry && ProjectById(db, id).Some? {
      BumpSpec(db, id, races, i + 1);
      if !Lost(races, i) {
        assert i <= i < Retry && !Lost(races, i);
      } else {
        if exists j :: i <= j < Retry && !Lost(races, j) {
          var j :| i <= j < Retry && !Lost(races, j);
          assert j != i;
          assert i + 1 <= j < Retry && !Lost(races, j);
        }
      }
    }
  }

  /** A bump with a winning attempt raises the version by one. */
  lemma BumpWins(db: Db, id: int, races: seq<bool>, v: int)
    requires ProjectById(db, id).Some? && ProjectById(db, id).value.compileVersion == v
    requires exists j :: 0 <= j < Retry && !Lost(races, j)
    ensures BumpFrom(db, id, races, 0) == Bumped(SetVersion(db, id, v + 1))
  {
    BumpSpec(db, id, races, 0);
  }

  /** A bumped version reads back one higher. */
  lemma SetVersionReads(db: Db, id: int, v: int)
    requires ProjectById(db, id).Some?
    ensures ProjectById(SetVersion(db, id, v), id) == Some(ProjectById(db, id).value.(compileVersion := v))
  {
    FirstAfterUpdate(db.projects, id, (r: ProjectRow) => r.(compileVersion := v));
  }

  /** One lost race: the as-written loop reports success on the first attempt
      with the version unchanged, where a retrying loop bumps it on the next
      attempt. */
  lemma BumpAsWrittenLosesRace(db: Db, id: int)
    requires ProjectById(db, id).Some?
    ensures BumpAsWritten(db, id, [true]) == Bumped(db)
    ensures BumpFrom(db, id, [true], 0) == Bumped(SetVersion(db, id, ProjectById(db, id).value.compileVersion + 1))
    ensures ProjectById(SetVersion(db, id, ProjectById(db, id).value.compileVersion + 1), id).value.compileVersion
            == ProjectById(db, id).value.compileVersion + 1
  {
    SetVersionReads(db, id, ProjectById(db, id).value.compileVersion + 1);
  }

  // ---------------------------------------------------------------------------
  // executeCompileTask

  /** The status and message recorded for one outcome of the task. */
  function Report(requestTime: int, status: CompileStatus, msg: string): CompileResult
  {
    CompileResult(requestTime, status, Some(msg))
  }

  /** The transaction part of TaskStep, once the records are made. */
  function StoreStep(db: Db, id: int, requestTime: int, records: seq<NodeUpdate>, races: seq<bool>): Step
  {
    match ApplyUpdates(db, records)
    case Fail(f) => Step(Throw(f), db)
    case Ok(db1) =>
      match BumpFrom(db1, id, races, 0)
      case Missing => Step(Throw(Failure(Generic, ProjectNotFound, [])), db)
      case Exhausted =>
        var s := RecordCompileResult(db, id, Report(requestTime, CompileFailed, ConflictMsg));
        if s.outcome.Throw? then s else Step(Throw(Failure(Generic, RetriesExhausted, [])), s.db)
      case Bumped(db2) =>
        var s := RecordCompileResult(db2, id, Report(requestTime, CompileSuccess, SuccessMsg));
        if s.outcome.Throw? then Step(s.outcome, db) else s
  }

  /** executeCompileTask on the tables it starts from.  The node updates and
      the version bump run in one transaction, rolled back when it throws;
      the compile result of a lost bump is written outside it and stays. */
  function TaskStep(db: Db, id: int, requestTime: int, env: CompileEnv): Step
  {
    if !env.queryOk then
      RecordCompileResult(db, id, Report(requestTime, QueryFailed, QueryFailedMsg))
    else
      var nodes := Filter(db.nodes, (r: NodeRow) => r.projectId == id);
      match UpdateRecords(nodes, env)
      case Fail(f) => RecordCompileResult(db, id, Report(requestTime, CompileFailed, f.reason))
      case Ok(records) => StoreStep(db, id, requestTime, records, env.lostRaces)
  }

  /** A failed query records QUERY_FAILED and touches no node. */
  lemma TaskQueryFailed(db: Db, id: int, requestTime: int, env: CompileEnv)
    requires !env.queryOk && HasProject(db, id)
    ensures var s := TaskStep(db, id, requestTime, env);
      s.outcome.Pass? && s.db.nodes == db.nodes
      && CompileResultOf(s.db, id) == Some(CompileResult(requestTime, QueryFailed, Some(QueryFailedMsg)))
  {
    RecordCompileResultSpec(db, id, Report(requestTime, QueryFailed, QueryFailedMsg));
    RecordCompileResultReads(db, id, Report(requestTime, QueryFailed, QueryFailedMsg));
  }

  /** A failed compilation records COMPILE_FAILED with the error's message and
      touches no node. */
  lemma TaskCompileFailed(db: Db, id: int, requestTime: int, env: CompileEnv)
    requires env.queryOk && HasProject(db, id)
    requires UpdateRecords(Filter(db.nodes, (r: NodeRow) => r.projectId == id), env).Fail?
    ensures var s := TaskStep(db, id, requestTime, env);
      var f := UpdateRecords(Filter(db.nodes, (r: NodeRow) => r.projectId == id), env).failure;
      s.outcome.Pass? && s.db.nodes == db.nodes
      && CompileResultOf(s.db, id) == Some(CompileResult(requestTime, CompileFailed, Some(f.reason)))
  {
    var f := UpdateRecords(Filter(db.nodes, (r: NodeRow) => r.projectId == id), env).failure;
    RecordCompileResultSpec(db, id, Report(requestTime, CompileFailed, f.reason));
    RecordCompileResultReads(db, id, Report(requestTime, CompileFailed, f.reason));
  }

  /** Storing the records and winning a bump attempt: COMPILE_SUCCESS is
      recorded, every record is stored and the version rises by one. */
  lemma StoreWins(db: Db, id: int, requestTime: int, records: seq<NodeUpdate>, races: seq<bool>)
    requires HasProject(db, id) && ApplyUpdates(db, records).Ok?
    requires exists j :: 0 <= j < Retry && !Lost(races, j)
    ensures var s := StoreStep(db, id, requestTime, records, races);
      && s.outcome.Pass?
      && s.db.nodes == ApplyUpdates(db, records).value.nodes
      && CompileResultOf(s.db, id) == Some(CompileResult(requestTime, CompileSuccess, Some(SuccessMsg)))
      && ProjectById(s.db, id).value.compileVersion == ProjectById(db, id).value.compileVersion + 1
  {
    ApplyKeepsProjects(db, records);
    var db1 := ApplyUpdates(db, records).value;
    assert ProjectById(db1, id) == ProjectById(db, id) by {
      assert db1.projects == db.projects;
    }
    var v := ProjectById(db, id).value.compileVersion;
    var db2 := SetVersion(db1, id, v + 1);
    BumpWins(db1, id, races, v);
    SetVersionReads(db1, id, v + 1);
    var c := Report(requestTime, CompileSuccess, SuccessMsg);
    RecordCompileResultReads(db2, id, c);
    StoreBumped(db, id, requestTime, records, races, db1, db2);
  }

  /** The transaction after a winning bump is updateCompileResult on the
      bumped tables. */
  lemma StoreBumped(db: Db, id: int, requestTime: int, records: seq<NodeUpdate>, races: seq<bool>, db1: Db, db2: Db)
    requires ApplyUpdates(db, records) == Ok(db1)
    requires BumpFrom(db1, id, races, 0) == Bumped(db2)
    requires ProjectById(db2, id).Some?
    ensures StoreStep(db, id, requestTime, records, races) == RecordCompileResult(db2, id, Report(requestTime, CompileSuccess, SuccessMsg))
  {
  }

  /** Storing the records and losing every bump attempt: COMPILE_FAILED is
      recorded, the task throws, and the nodes and the version are rolled
      back. */
  lemma StoreLoses(db: Db, id: int, requestTime: int, records: seq<NodeUpdate>, races: seq<bool>)
    requires HasProject(db, id) && ApplyUpdates(db, records).Ok?
    requires forall j :: 0 <= j < Retry ==> Lost(races, j)
    ensures var s := StoreStep(db, id, requestTime, records, races);
      && s.outcome == Throw(Failure(Generic, RetriesExhausted, []))
      && s.db.nodes == db.nodes
      && CompileResultOf(s.db, id) == Some(CompileResult(requestTime, CompileFailed, Some(ConflictMsg)))
      && ProjectById(s.db, id).value.compileVersion == ProjectById(db, id).value.compileVersion
  {
    ApplyKeepsProjects(db, records);
    var db1 := ApplyUpdates(db, records).value;
    BumpSpec(db1, id, races, 0);
    RecordCompileResultReads(db, id, Report(requestTime, CompileFailed, ConflictMsg));
  }

  /** A compilation whose records are stored succeeds exactly when one of the
      ten bump attempts wins, with the effects StoreWins and StoreLoses
      state. */
  lemma TaskCompiled(db: Db, id: int, requestTime: int, env: CompileEnv)
    requires env.queryOk && HasProject(db, id)
    requires UpdateRecords(Filter(db.nodes, (r: NodeRow) => r.projectId == id), env).Ok?
    requires ApplyUpdates(db, UpdateRecords(Filter(db.nodes, (r: NodeRow) => r.projectId == id), env).value).Ok?
    ensures var records := UpdateRecords(Filter(db.nodes, (r: NodeRow) => r.projectId == id), env).value;
      && TaskStep(db, id, requestTime, env) == StoreStep(db, id, requestTime, records, env.lostRaces)
      && (TaskStep(db, id, requestTime, env).outcome.Pass? <==> exists j :: 0 <= j < Retry && !Lost(env.lostRaces, j))
  {
    var records := UpdateRecords(Filter(db.nodes, (r: NodeRow) => r.projectId == id), env).value;
    if exists j :: 0 <= j < Retry && !Lost(env.lostRaces, j) {
      StoreWins(db, id, requestTime, records, env.lostRaces);
    } else {
      StoreLoses(db, id, requestTime, records, env.lostRaces);
    }
  }

  /** The transaction changes node rows only when it records
      COMPILE_SUCCESS. */
  lemma StoreNodesOnlyOnSuccess(db: Db, id: int, requestTime: int, records: seq<NodeUpdate>, races: seq<bool>)
    requires StoreStep(db, id, requestTime, records, races).db.nodes != db.nodes
    ensures CompileResultOf(StoreStep(db, id, requestTime, records, races).db, id)
            == Some(CompileResult(requestTime, CompileSuccess, Some(SuccessMsg)))
  {
    var db1 := ApplyUpdates(db, records).value;
    match BumpFrom(db1, id, races, 0)
    case Bumped(db2) =>
      RecordCompileResultReads(db2, id, Report(requestTime, CompileSuccess, SuccessMsg));
    case Missing =>
    case Exhausted =>
  }

  /** Node scripts and artifacts change only when the task records
      COMPILE_SUCCESS. */
  lemma TaskNodesOnlyOnSuccess(db: Db, id: int, requestTime: int, env: CompileEnv)
    requires TaskStep(db, id, requestTime, env).db.nodes != db.nodes
    ensures CompileResultOf(TaskStep(db, id, requestTime, env).db, id)
            == Some(CompileResult(requestTime, CompileSuccess, Some(SuccessMsg)))
  {
    var nodes := Filter(db.nodes, (r: NodeRow) => r.projectId == id);
    if env.queryOk && UpdateRecords(nodes, env).Ok? {
      StoreNodesOnlyOnSuccess(db, id, requestTime, UpdateRecords(nodes, env).value, env.lostRaces);
    }
  }

  // ---------------------------------------------------------------------------
  // The service

  class Service {
    const store: Store
    /** vsCompileTaskSubmitExecutor: the projects with a submitted task. */
    var tasks: set<int>

    constructor (store: Store)
      ensures this.store == store && tasks == {}
    {
      this.store := store;
      tasks := {};
    }

    method Add(req: ProjectAddReq) returns (r: Result<ProjectRow>)
      modifies store
      ensures Added(r, store.State()) == AddStep(old(store.State()), req)
    {
      var existing := ProjectsNamed(store.State(), req.name);
      if |existing| > 0 {
        return Fail(Failure(Unauthorized, NameTaken, [req.name]));
      }
      var row := NewProject(NextId(store.State()), req);
      store.projects := store.projects + [row];
      return Ok(row);
    }

    /** updateCompileResult on the store. */
    method UpdateCompileResult(id: int, c: CompileResult) returns (o: Outcome)
      modifies store
      ensures Step(o, store.State()) == RecordCompileResult(old(store.State()), id, c)
    {
      var row := ProjectById(store.State(), id);
      if row.None? {
        return Throw(Failure(Generic, RecordMissing, []));
      }
      var props := WithCompileResult(row.value.properties, c);
      store.projects := Update(store.projects, (r: ProjectRow) => r.id == id,
                               (r: ProjectRow) => r.(properties := Some(props)));
      return Pass;
    }

    /** compile: check the project, record COMPILING, submit the task. */
    method Compile(id: int, now: int) returns (r: Result<bool>)
      modifies this, store
      ensures Step(if r.Ok? then Pass else Throw(r.failure), store.State()) == CompileStep(old(store.State()), id, now)
      ensures r.Ok? ==> r.value && tasks == old(tasks) + {id}
      ensures r.Fail? ==> tasks == old(tasks)
    {
      var prj := ProjectById(store.State(), id);
      if prj.None? {
        return Fail(Failure(BadRequest, ProjectChanged, []));
      }
      if prj.value.state == Online {
        return Fail(Failure(BadRequest, ProjectOnline, []));
      }
      var o := UpdateCompileResult(id, CompileResult(now, Compiling, None));
      tasks := tasks + {id};
      return Ok(true);
    }

    /** executeCompileTask: the task a compile request submits.  It ends with
        what TaskStep says and always clears the project's registry entry. */
    method ExecuteCompileTask(id: int, requestTime: int, env: CompileEnv) returns (o: Outcome)
      modifies this, store
      ensures Step(o, store.State()) == TaskStep(old(store.State()), id, requestTime, env)
      ensures tasks == old(tasks) - {id}
    {
      var db := store.State();
      if !env.queryOk {
        o := UpdateCompileResult(id, Report(requestTime, QueryFailed, QueryFailedMsg));
        tasks := tasks - {id};
        return;
      }
      var nodes := Filter(store.nodes, (r: NodeRow) => r.projectId == id);
      var records: Result<seq<NodeUpdate>>;
      if env.scripts.Fail? {
        records := Fail(env.scripts.failure);
      } else if env.compiled.Fail? {
        records := Fail(env.compiled.failure);
      } else {
        records := GetUpdateRecord(nodes, env.scripts.value, env.compiled.value);
      }
      if records.Fail? {
        o := UpdateCompileResult(id, Report(requestTime, CompileFailed, records.failure.reason));
        tasks := tasks - {id};
        return;
      }
      o := StoreCompiled(id, requestTime, records.value, env.lostRaces);
      tasks := tasks - {id};
    }

    /** The transaction of a successful compilation: store the records, bump
        the version, record the outcome; a throw inside restores the tables
        as they were. */
    method StoreCompiled(id: int, requestTime: int, records: seq<NodeUpdate>, races: seq<bool>) returns (o: Outcome)
      modifies store
      ensures Step(o, store.State()) == StoreStep(old(store.State()), id, requestTime, records, races)
    {
      var db := store.State();
      o := StoreRecords(records);
      if o.Throw? {
        return;
      }
      var b := BumpVersion(id, races);
      if b.Missing? {
        store.projects, store.nodes, store.ports, store.links := db.projects, db.nodes, db.ports, db.links;
        return Throw(Failure(Generic, ProjectNotFound, []));
      }
      if b.Bumped? {
        o := UpdateCompileResult(id, Report(requestTime, CompileSuccess, SuccessMsg));
        if o.Throw? {
          store.projects, store.nodes, store.ports, store.links := db.projects, db.nodes, db.ports, db.links;
        }
      } else {
        store.projects, store.nodes, store.ports, store.links := db.projects, db.nodes, db.ports, db.links;
        o := UpdateCompileResult(id, Report(requestTime, CompileFailed, ConflictMsg));
        if o.Pass? {
          o := Throw(Failure(Generic, RetriesExhausted, []));
        }
      }
    }

    /** The node updates of the transaction, undone when one of them fails. */
    method StoreRecords(records: seq<NodeUpdate>) returns (o: Outcome)
      modifies store
      ensures ApplyUpdates(old(store.State()), records) == (if o.Pass? then Ok(store.State()) else Fail(o.failure))
      ensures o.Throw? ==> store.State() == old(store.State())
    {
      var db := store.State();
      for k := 0 to |records|
        invariant ApplyUpdates(db, records[..k]) == Ok(store.State())
      {
        ApplyStep(db, records, k, store.State());
        var u := records[k];
        if !HasNode(store.State(), u.id) {
          ApplyFailSticks(db, records, k + 1);
          store.projects, store.nodes, store.ports, store.links := db.projects, db.nodes, db.ports, db.links;
          return Throw(Failure(Generic, RecordMissing, [u.id]));
        }
        var d := store.State();
        store.nodes := seq(|d.nodes|, i requires 0 <= i < |d.nodes| => Patch(d.nodes[i], u));
      }
      assert records[..|records|] == records;
      return Pass;
    }

    /** The optimistic version bump: up to ten attempts, each reading the
        version and writing it plus one unless the race is lost. */
    method BumpVersion(id: int, races: seq<bool>) returns (b: Bump)
      modifies store
      ensures b == BumpFrom(old(store.State()), id, races, 0)
      ensures b.Bumped? ==> store.State() == b.db
      ensures !b.Bumped? ==> store.State() == old(store.State())
    {
      var db1 := store.State();
      var i := 0;
      while i < Retry
        invariant 0 <= i <= Retry
        invariant store.State() == db1
        invariant BumpFrom(db1, id, races, 0) == BumpFrom(db1, id, races, i)
        decreases Retry - i
      {
        var current := ProjectById(store.State(), id);
        if current.None? {
          return Missing;
        }
        if !Lost(races, i) {
          var next := SetVersion(store.State(), id, current.value.compileVersion + 1);
          store.projects := next.projects;
          return Bumped(next);
        }
        i := i + 1;
      }
      return Exhausted;
    }
  }
}
