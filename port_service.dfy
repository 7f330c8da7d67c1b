// The editor's port service (apps/vs-adapter/src/port/port.service.ts): the
// rules a new port must meet, and the script checks an updated port passes
// on each kind of node.  The script a port update computes is returned by
// none of the generators' callers and written nowhere, so an update is
// modelled by the checks it makes and the one write it does (a CONTEXT
// port's path registered on its project).

module PortService {
  import opened Wrappers
  import opened Enums
  import opened Strs
  import opened ScriptGen
  import opened RouteEnum
  import opened PortProps
  import opened AdapterStore

  /** A JavaScript value that is neither undefined nor the empty string, the
      test both `!x` and `x !== undefined && x !== ''` make on a string
      property. */
  predicate Given(s: Option<string>)
  {
    s.Some? && s.value != ""
  }

  // ---------------------------------------------------------------------------
  // The name rule

  const NameTooLong := "an output port of a composite node has a name of at most 10 characters"
  const NameUndefined := "the port name is undefined"

  /** checkCompositeNormalNodeOutputPortNameLength: only an OUTPUT port of a
      COMPOSITE_NORMAL node is checked; reading the length of a missing name
      is a TypeError. */
  function CheckNameLength(name: Option<string>, taskType: TaskType, portType: PortType): Outcome
  {
    if taskType == CompositeNormal && portType == OutputPort then
      if name.None? then Throw(Failure(TypeErr, NameUndefined, []))
      else if |name.value| > 10 then Throw(Failure(BadRequest, NameTooLong, []))
      else Pass
    else Pass
  }

  /** The name rule refuses exactly an output port of a COMPOSITE_NORMAL node
      whose name is missing or longer than 10 characters; every other
      combination passes whatever the name. */
  lemma CheckNameLengthSpec(name: Option<string>, taskType: TaskType, portType: PortType)
    ensures CheckNameLength(name, taskType, portType).Throw?
      <==> taskType == CompositeNormal && portType == OutputPort && (name.None? || |name.value| > 10)
    ensures name.Some? && CheckNameLength(name, taskType, portType).Throw?
      ==> CheckNameLength(name, taskType, portType).failure.kind == BadRequest
  {
  }

  // ---------------------------------------------------------------------------
  // generatePortScriptWhenRouteTaskType

  const RouteMissing := "the route property is missing"
  const MultipleConditions := "exactly one route condition is supported"
  const EmptyKeyOrValue := "the route key and right value must not be empty"

  /** `${sourceExpression}['${key}']`: the request map the condition reads
      and the key it reads there. */
  function LeftValue(source: string, key: string): string
  {
    SourceExpressionText(source) + "['" + key + "']"
  }

  /** The comparison template for each data type. */
  function RouteTemplate(t: RouteDataType, leftV: string, op: string, rightV: string): string
  {
    match t
    case TInteger => GenerateRouteLongCompare(leftV, op, rightV)
    case TDouble => GenerateRouteDoubleCompare(leftV, op, rightV)
    case TDatetime => GenerateRouteDatetimeCompare(leftV, op, rightV)
    case TString => GenerateRouteStringCompare(leftV, op, rightV)
  }

  /** generatePortScriptWhenRouteTaskType: the route section must hold
      exactly one condition, whose right value is checked against its data
      type (class validator rules) before its key and right value are
      required to be non-empty; the template is picked by the data type. */
  function RouteScript(portId: string, prop: VsPortProp, nodeId: string, dates: DateChecks): Result<string>
  {
    if prop.route.None? then Fail(Failure(BadRequest, RouteMissing, [portId, nodeId]))
    else
      var metas := prop.route.value.meta;
      if metas.None? || |metas.value| != 1 then Fail(Failure(Generic, MultipleConditions, [portId, nodeId]))
      else
        var m := metas.value[0];
        match ValidateAndThrow(m.rightValue, m.dataType, nodeId, dates)
        case Throw(e) => Fail(e)
        case Pass =>
          if !Given(m.key) || !Given(m.rightValue) then
            Fail(Failure(Generic, EmptyKeyOrValue,
                         [portId, nodeId, m.key.GetOr("undefined"), m.rightValue.GetOr("undefined")]))
          else
            match DataTypeOf(m.dataType)
            case Some(t) => Ok(RouteTemplate(t, LeftValue(m.source, m.key.value), OperatorText(m.op), m.rightValue.value))
            case None => Fail(Failure(Generic, UnsupportedDataType, [portId, nodeId, m.dataType]))
  }

  /** A route port without a route section, or whose section does not hold
      exactly one condition, is refused before its condition is read. */
  lemma RouteScriptShape(portId: string, prop: VsPortProp, nodeId: string, dates: DateChecks)
    ensures prop.route.None? ==> RouteScript(portId, prop, nodeId, dates) == Fail(Failure(BadRequest, RouteMissing, [portId, nodeId]))
    ensures prop.route.Some? && (prop.route.value.meta.None? || |prop.route.value.meta.value| != 1)
      ==> RouteScript(portId, prop, nodeId, dates) == Fail(Failure(Generic, MultipleConditions, [portId, nodeId]))
  {
  }

  /** Of the one condition `m`: a right value its data type refuses fails
      with the validator's own exception, even when the key is empty; a
      valid right value with an empty key or right value is refused next;
      otherwise the script is the template of the condition's data type (a
      known one, which the right value suits) over `source['key']`, the
      operator of the condition's op and the right value.  The generator's
      own unsupported-type branch is never reached. */
  lemma RouteScriptOfCondition(portId: string, prop: VsPortProp, nodeId: string, dates: DateChecks, m: RouteMeta)
    requires prop.route == Some(RouteProp(Some([m])))
    ensures ValidateAndThrow(m.rightValue, m.dataType, nodeId, dates).Throw? ==>
      RouteScript(portId, prop, nodeId, dates) == Fail(ValidateAndThrow(m.rightValue, m.dataType, nodeId, dates).failure)
    ensures (ValidateAndThrow(m.rightValue, m.dataType, nodeId, dates).Pass? && !(Given(m.key) && Given(m.rightValue))) ==>
      (RouteScript(portId, prop, nodeId, dates).Fail?
       && RouteScript(portId, prop, nodeId, dates).failure.reason == EmptyKeyOrValue)
    ensures (ValidateAndThrow(m.rightValue, m.dataType, nodeId, dates).Pass? && Given(m.key) && Given(m.rightValue)) ==>
      exists t: RouteDataType :: t.Code() == m.dataType && Accepts(t, m.rightValue, dates, Loose)
        && RouteScript(portId, prop, nodeId, dates)
           == Ok(RouteTemplate(t, LeftValue(m.source, m.key.value), OperatorText(m.op), m.rightValue.value))
  {
    assert prop.route.value.meta.value[0] == m;
    CheckSpec(m.rightValue, m.dataType, nodeId, dates, Loose);
    if ValidateAndThrow(m.rightValue, m.dataType, nodeId, dates).Pass? && Given(m.key) && Given(m.rightValue) {
      var t: RouteDataType :| t.Code() == m.dataType && Accepts(t, m.rightValue, dates, Loose);
      assert DataTypeOf(m.dataType) == Some(t);
    }
  }

  /** The left value of a condition on the request headers or parameters
      reads that map at the condition's key. */
  lemma LeftValueText(key: string)
    ensures LeftValue(ReqHeader.Code(), key) == "this.getRequestHeader()['" + key + "']"
    ensures LeftValue(ReqParam.Code(), key) == "this.getRequestParam()['" + key + "']"
  {
  }

  // ---------------------------------------------------------------------------
  // generatePortScriptWhenConvertTaskType / generatePortScriptWhenEndTaskType

  const ScriptMissing := "the port has no script"

  /** The CONVERT and END generators (the two are the same code): the
      port's own script, which must be given. */
  function GivenScript(portId: string, prop: VsPortProp, nodeId: string): (r: Result<string>)
    ensures r.Ok? <==> Given(prop.script)
    ensures r.Ok? ==> r.value == prop.script.value
    ensures r.Fail? ==> r.failure == Failure(BadRequest, ScriptMissing, [portId, nodeId])
  {
    if !Given(prop.script) then Fail(Failure(BadRequest, ScriptMissing, [portId, nodeId]))
    else Ok(prop.script.value)
  }

  // ---------------------------------------------------------------------------
  // generatePortScriptWhenHttpTaskType

  const HttpMissing := "the http property is missing"
  const UrlOrTimeoutMissing := "the url or the request timeout is missing"
  const MethodMissing := "the http method is missing"
  const PathParamsUndefined := "pathParams is undefined"
  const UnsupportedHttpMethod := "unsupported http method"

  /** What the HTTP generator yields: the template it fills (by the
      request's method) with the url and the timeout, and the
      `additionDefine` it stores into the request's properties. */
  datatype HttpScript = HttpScript(httpMethod: HttpMethod, url: string, requestTimeout: string, additionDefine: string)
  {
    /** The request script: the GET or POST template, filled (both templates
        lack the holes, so this is the template itself, as
        ScriptGen.HttpGetIgnoresArgs and HttpPostIgnoresArgs show). */
    function Script(): string
    {
      match httpMethod
      case Get => GenerateHttpGet(url, requestTimeout)
      case Post => GenerateHttpPost(url, requestTimeout)
    }
  }

  /** The replace statement of one path parameter; a missing name or default
      is written as `undefined`, as a template argument would be. */
  function ParamStatement(p: PathParam): string
  {
    GeneratePathReplaceStatement(p.name.GetOr("undefined"), p.defaultValue.GetOr("undefined"))
  }

  /** The statements the loop pushes, one per path parameter. */
  function ChangeStatements(ps: seq<PathParam>): seq<string>
    decreases |ps|
  {
    if |ps| == 0 then [] else ChangeStatements(ps[..|ps| - 1]) + [ParamStatement(ps[|ps| - 1])]
  }

  /** One replace statement per path parameter, in the parameters' order. */
  lemma {:induction false} ChangeStatementsSpec(ps: seq<PathParam>)
    ensures |ChangeStatements(ps)| == |ps|
    ensures forall i :: 0 <= i < |ps| ==> ChangeStatements(ps)[i] == ParamStatement(ps[i])
    decreases |ps|
  {
    if |ps| > 0 {
      var init := ps[..|ps| - 1];
      var last := ParamStatement(ps[|ps| - 1]);
      ChangeStatementsSpec(init);
      assert ChangeStatements(ps) == ChangeStatements(init) + [last];
      forall i | 0 <= i < |ps| ensures ChangeStatements(ps)[i] == ParamStatement(ps[i]) {
        if i < |init| {
          assert init[i] == ps[i];
        }
      }
    }
  }

  /** The `additionDefine` of an HTTP port: the replace method around the
      statements joined by newlines, or around nothing without parameters. */
  function AdditionDefineFor(ps: seq<PathParam>): string
  {
    if |ps| > 0 then GeneratePathReplaceMethodDefine(Join(ChangeStatements(ps), "\n"))
    else GeneratePathReplaceMethodDefine("")
  }

  /** The two branches agree: with no parameters the joined statements are
      empty, so the define is always the method around the joined
      statements. */
  lemma AdditionDefineJoins(ps: seq<PathParam>)
    ensures AdditionDefineFor(ps) == GeneratePathReplaceMethodDefine(Join(ChangeStatements(ps), "\n"))
  {
  }

  /** The checks of generatePortScriptWhenHttpTaskType, in the source's
      order: an http section, a url and a timeout, a method, a
      path-parameter list (reading the length of a missing one is a
      TypeError), and last the method GET or POST. */
  function HttpCheck(portId: string, prop: VsPortProp, nodeId: string): Outcome
  {
    if prop.http.None? then Throw(Failure(BadRequest, HttpMissing, [portId, nodeId]))
    else
      var h := prop.http.value;
      if !Given(h.url) || h.requestTimeout.None? then Throw(Failure(BadRequest, UrlOrTimeoutMissing, [portId, nodeId]))
      else if !Given(h.httpMethod) then Throw(Failure(BadRequest, MethodMissing, [portId, nodeId]))
      else if h.pathParams.None? then Throw(Failure(TypeErr, PathParamsUndefined, []))
      else if h.httpMethod.value != Get.Code() && h.httpMethod.value != Post.Code() then
        Throw(Failure(BadRequest, UnsupportedHttpMethod, [portId, nodeId, h.httpMethod.value]))
      else Pass
  }

  /** generatePortScriptWhenHttpTaskType, as a value: after the checks, the
      request for the section's method, url and timeout, with the define
      built from the path parameters. */
  function HttpScriptOf(portId: string, prop: VsPortProp, nodeId: string): Result<HttpScript>
  {
    match HttpCheck(portId, prop, nodeId)
    case Throw(e) => Fail(e)
    case Pass =>
      var h := prop.http.value;
      Ok(HttpScript(if h.httpMethod.value == Get.Code() then Get else Post,
                    h.url.value, IntToString(h.requestTimeout.value), AdditionDefineFor(h.pathParams.value)))
  }

  /** An HTTP port passes exactly when it has an http section with a url, a
      timeout, a path-parameter list and the method GET or POST.  Each
      refusal is a bad request except the missing parameter list. */
  lemma HttpCheckSpec(portId: string, prop: VsPortProp, nodeId: string)
    ensures HttpCheck(portId, prop, nodeId).Pass? <==>
      && prop.http.Some? && Given(prop.http.value.url) && prop.http.value.requestTimeout.Some?
      && Given(prop.http.value.httpMethod) && prop.http.value.pathParams.Some?
      && prop.http.value.httpMethod.value in {"GET", "POST"}
    ensures HttpCheck(portId, prop, nodeId).Throw? ==>
      (HttpCheck(portId, prop, nodeId).failure.kind == BadRequest
       <==> HttpCheck(portId, prop, nodeId).failure.reason != PathParamsUndefined)
  {
  }

  /** The generator fails exactly as its checks do; when they pass, it fills
      the template of the section's own method with the section's url and
      timeout (written in decimal), and its define has one replace
      statement per path parameter, in order. */
  lemma HttpScriptOfSpec(portId: string, prop: VsPortProp, nodeId: string)
    ensures HttpScriptOf(portId, prop, nodeId).Ok? <==> HttpCheck(portId, prop, nodeId).Pass?
    ensures HttpScriptOf(portId, prop, nodeId).Fail? ==>
      HttpScriptOf(portId, prop, nodeId).failure == HttpCheck(portId, prop, nodeId).failure
    ensures HttpScriptOf(portId, prop, nodeId).Ok? ==>
      var r := HttpScriptOf(portId, prop, nodeId).value;
      var h := prop.http.value;
      var ps := h.pathParams.value;
      && Some(r.httpMethod.Code()) == h.httpMethod
      && Some(r.url) == h.url
      && r.requestTimeout == IntToString(h.requestTimeout.value)
      && r.additionDefine == GeneratePathReplaceMethodDefine(Join(ChangeStatements(ps), "\n"))
      && |ChangeStatements(ps)| == |ps|
      && (forall i :: 0 <= i < |ps| ==> ChangeStatements(ps)[i] == ParamStatement(ps[i]))
  {
    if HttpCheck(portId, prop, nodeId).Pass? {
      ChangeStatementsSpec(prop.http.value.pathParams.value);
    }
  }

  /** generatePortScriptWhenHttpTaskType: the checks, the loop over the path
      parameters, the join, and the template. */
  method GenerateHttpScript(portId: string, prop: VsPortProp, nodeId: string) returns (r: Result<HttpScript>)
    ensures r == HttpScriptOf(portId, prop, nodeId)
  {
    if prop.http.None? {
      return Fail(Failure(BadRequest, HttpMissing, [portId, nodeId]));
    }
    var h := prop.http.value;
    if !Given(h.url) || h.requestTimeout.None? {
      return Fail(Failure(BadRequest, UrlOrTimeoutMissing, [portId, nodeId]));
    }
    if !Given(h.httpMethod) {
      return Fail(Failure(BadRequest, MethodMissing, [portId, nodeId]));
    }
    if h.pathParams.None? {
      return Fail(Failure(TypeErr, PathParamsUndefined, []));
    }
    var pathParams := h.pathParams.value;
    var additionDefine;
    if |pathParams| > 0 {
      var changeStatements: seq<string> := [];
      for i := 0 to |pathParams|
        invariant changeStatements == ChangeStatements(pathParams[..i])
      {
        assert pathParams[..i + 1][..i] == pathParams[..i];
        changeStatements := changeStatements + [ParamStatement(pathParams[i])];
      }
      assert pathParams[..|pathParams|] == pathParams;
      additionDefine := GeneratePathReplaceMethodDefine(Join(changeStatements, "\n"));
    } else {
      additionDefine := GeneratePathReplaceMethodDefine("");
    }
    var timeout := IntToString(h.requestTimeout.value);
    if h.httpMethod.value == Get.Code() {
      r := Ok(HttpScript(Get, h.url.value, timeout, additionDefine));
    } else if h.httpMethod.value == Post.Code() {
      r := Ok(HttpScript(Post, h.url.value, timeout, additionDefine));
    } else {
      r := Fail(Failure(BadRequest, UnsupportedHttpMethod, [portId, nodeId, h.httpMethod.value]));
    }
  }

  // ---------------------------------------------------------------------------
  // modify

  const PortMissing := "the port is null"
  const NodeMissing := "the node is null"
  const ContextMissing := "the context property is missing"
  const PathTaken := "the context path is taken by other projects"
  const PathMissing := "the context path must not be empty"
  const UnsupportedTaskType := "unsupported task type"

  /** The outcome of a generator, whose script is dropped. */
  function Done<T>(r: Result<T>): Outcome
  {
    match r
    case Ok(_) => Pass
    case Fail(e) => Throw(e)
  }

  /** The projects other than `projectId` that already serve `path`. */
  function PathUsers(db: Db, path: string, projectId: int): seq<ProjectRow>
  {
    Filter(db.projects, (r: ProjectRow) => r.contextPath == Some(path) && r.id != projectId)
  }

  /** The names of some projects, in order. */
  function Names(rows: seq<ProjectRow>): seq<string>
  {
    seq(|rows|, i requires 0 <= i < |rows| => rows[i].name)
  }

  /** Registering the context path on the project: the row gets the path, and
      the context's method when it has one (an undefined field is left out
      of the update). */
  function WithContext(r: ProjectRow, path: string, httpMethod: Option<string>): ProjectRow
  {
    r.(contextPath := Some(path), httpMethod := if httpMethod.Some? then httpMethod else r.httpMethod)
  }

  /** The CONTEXT branch of modify: the port's context section must have a
      path no other project serves; the port's project is then updated
      (failing if its row is gone). */
  function ContextStep(db: Db, port: PortRow, node: NodeRow, prop: VsPortProp): Step
  {
    if prop.context.None? then Step(Throw(Failure(BadRequest, ContextMissing, [port.id])), db)
    else
      var path := prop.context.value.path;
      if !Given(path) then
        Step(Throw(Failure(BadRequest, PathMissing, [port.id, node.id, node.taskType.Code()])), db)
      else
        var users := PathUsers(db, path.value, port.projectId);
        if |users| > 0 then Step(Throw(Failure(BadRequest, PathTaken, [Join(Names(users), ",")])), db)
        else if ProjectById(db, port.projectId).None? then Step(Throw(Failure(Generic, RecordMissing, [])), db)
        else
          var projects := Update(db.projects, (r: ProjectRow) => r.id == port.projectId,
                                 (r: ProjectRow) => WithContext(r, path.value, prop.context.value.httpMethod));
          Step(Pass, db.(projects := projects))
  }

  /** The script checks of an OUTPUT port without a script of its own, by the
      task type of its node. */
  function OutputStep(db: Db, port: PortRow, node: NodeRow, prop: VsPortProp, dates: DateChecks): Step
  {
    match node.taskType
    case CompositeNormal => Step(Pass, db)
    case CompositeEnd => Step(Pass, db)
    case Context => ContextStep(db, port, node, prop)
    case Route => Step(Done(RouteScript(port.id, prop, port.nodeId, dates)), db)
    case Http => Step(Done(HttpScriptOf(port.id, prop, port.nodeId)), db)
    case Convert => Step(Done(GivenScript(port.id, prop, port.nodeId)), db)
    case DataMapping => Step(Done(RouteScript(port.id, prop, port.nodeId, dates)), db)
    case End => Step(Throw(Failure(BadRequest, UnsupportedTaskType,
                                   [port.id, node.id, node.taskType.Code(), port.portType.Code()])), db)
  }

  /** The script checks of an INPUT port without a script of its own: only an
      END node's input port is generated for. */
  function InputStep(db: Db, port: PortRow, node: NodeRow, prop: VsPortProp): Step
  {
    if node.taskType == End then Step(Done(GivenScript(port.id, prop, port.nodeId)), db)
    else Step(Throw(Failure(BadRequest, UnsupportedTaskType,
                            [port.id, node.id, node.taskType.Code(), port.portType.Code()])), db)
  }

  /** PortService.modify: the stored port and its node are looked up (a
      missing one is a TypeError on reading its fields), the name rule is
      applied on the stored port type, and a port with a script of its own
      passes at once; otherwise the port's kinds decide the checks. */
  function ModifyStep(db: Db, req: UpdatePortDto, dates: DateChecks): Step
  {
    match PortById(db, req.id)
    case None => Step(Throw(Failure(TypeErr, PortMissing, [])), db)
    case Some(port) =>
      match NodeById(db, port.nodeId)
      case None => Step(Throw(Failure(TypeErr, NodeMissing, [])), db)
      case Some(node) =>
        var prop := req.properties;
        match CheckNameLength(prop.name, node.taskType, port.portType)
        case Throw(e) => Step(Throw(e), db)
        case Pass =>
          if Given(prop.script) then Step(Pass, db)
          else if port.portType == OutputPort then OutputStep(db, port, node, prop, dates)
          else InputStep(db, port, node, prop)
  }

  /** An update writes nothing but the project of a CONTEXT node's output
      port: only the projects change, and of them only the rows of the
      port's own project; a refused update writes nothing. */
  lemma ModifyWrites(db: Db, req: UpdatePortDto, dates: DateChecks)
    ensures var r := ModifyStep(db, req, dates);
      && r.db.nodes == db.nodes && r.db.ports == db.ports && r.db.links == db.links
      && |r.db.projects| == |db.projects|
      && (r.outcome.Throw? ==> r.db == db)
      && (r.db != db ==>
            (PortById(db, req.id).Some?
             && (forall i :: 0 <= i < |db.projects| && db.projects[i].id != PortById(db, req.id).value.projectId
                   ==> r.db.projects[i] == db.projects[i])))
  {
  }

  /** After a CONTEXT port's update passes, its project serves the path and
      no other project does. */
  lemma ContextPathUnique(db: Db, req: UpdatePortDto, dates: DateChecks, port: PortRow, node: NodeRow)
    requires PortById(db, req.id) == Some(port) && NodeById(db, port.nodeId) == Some(node)
    requires node.taskType == Context && port.portType == OutputPort && !Given(req.properties.script)
    requires ModifyStep(db, req, dates).outcome.Pass?
    ensures req.properties.context.Some? && Given(req.properties.context.value.path)
    ensures var path := req.properties.context.value.path;
      var after := ModifyStep(db, req, dates).db;
      && (exists i :: 0 <= i < |after.projects| && after.projects[i].id == port.projectId
                      && after.projects[i].contextPath == path)
      && (forall i :: 0 <= i < |after.projects| && after.projects[i].contextPath == path
                      ==> after.projects[i].id == port.projectId)
  {
    var path := req.properties.context.value.path.value;
    var users := PathUsers(db, path, port.projectId);
    FilterMembers(db.projects, (r: ProjectRow) => r.contextPath == Some(path) && r.id != port.projectId);
    var after := ModifyStep(db, req, dates).db;
    var k :| 0 <= k < |db.projects| && db.projects[k] == ProjectById(db, port.projectId).value;
    assert after.projects[k].id == port.projectId;
    forall i | 0 <= i < |after.projects|
      ensures after.projects[i].contextPath == Some(path) ==> after.projects[i].id == port.projectId
    {
      if db.projects[i].id != port.projectId {
        assert db.projects[i] in db.projects && db.projects[i] !in users;
      }
    }
  }

  /** A port without a script of its own passes an update only as an OUTPUT
      port of a composite node, or of a CONTEXT, ROUTE, DATA_MAPPING or HTTP
      node whose section the generator accepts: the CONVERT and END
      generators, which demand the very script that is missing, always
      refuse, and so does every INPUT port. */
  lemma ModifyWithoutScript(db: Db, req: UpdatePortDto, dates: DateChecks)
    requires !Given(req.properties.script)
    ensures ModifyStep(db, req, dates).outcome.Pass? ==>
      && PortById(db, req.id).Some?
      && NodeById(db, PortById(db, req.id).value.nodeId).Some?
      && PortById(db, req.id).value.portType == OutputPort
      && NodeById(db, PortById(db, req.id).value.nodeId).value.taskType
           in {CompositeNormal, CompositeEnd, Context, Route, DataMapping, Http}
  {
  }

  /** A port with a script of its own passes an update once the port, its
      node and the name rule do, whatever its kinds. */
  lemma ModifyWithScript(db: Db, req: UpdatePortDto, dates: DateChecks)
    requires Given(req.properties.script)
    ensures ModifyStep(db, req, dates).outcome.Pass? <==>
      && PortById(db, req.id).Some?
      && NodeById(db, PortById(db, req.id).value.nodeId).Some?
      && CheckNameLength(req.properties.name, NodeById(db, PortById(db, req.id).value.nodeId).value.taskType,
                         PortById(db, req.id).value.portType).Pass?
    ensures ModifyStep(db, req, dates).db == db
  {
  }

  /** PortService.modify on the store. */
  method Modify(store: Store, req: UpdatePortDto, dates: DateChecks) returns (o: Outcome)
    modifies store
    ensures Step(o, store.State()) == ModifyStep(old(store.State()), req, dates)
  {
    var db := store.State();
    var dbPort := PortById(db, req.id);
    if dbPort.None? {
      return Throw(Failure(TypeErr, PortMissing, []));
    }
    var port := dbPort.value;
    var vsNode := NodeById(db, port.nodeId);
    if vsNode.None? {
      return Throw(Failure(TypeErr, NodeMissing, []));
    }
    var node := vsNode.value;
    var prop := req.properties;
    o := CheckNameLength(prop.name, node.taskType, port.portType);
    if o.Throw? || Given(prop.script) {
      return;
    }
    if port.portType == OutputPort && node.taskType == Context {
      var step := ContextStep(db, port, node, prop);
      store.projects := step.db.projects;
      o := step.outcome;
    } else if port.portType == OutputPort && node.taskType == Http {
      var r := GenerateHttpScript(port.id, prop, port.nodeId);
      o := Done(r);
    } else if port.portType == OutputPort {
      o := OutputStep(db, port, node, prop, dates).outcome;
    } else {
      o := InputStep(db, port, node, prop).outcome;
    }
  }

  // ---------------------------------------------------------------------------
  // add

  /** AddPortDto, with its properties as the object they are used as. */
  datatype AddPortDto = AddPortDto(id: string, projectId: int, nodeId: string, properties: VsPortProp, portType: PortType)

  const InputPortTaken := "the node already has an input port"
  const ContextInputPort := "a start node has output ports only"
  const EndOutputPort := "an end node has input ports only"
  const OutputPortTaken := "the node already has an output port"
  const ToVsPortMissing := "req.toVsPort is not a function"

  /** The ports of a node of one type. */
  function PortsOf(db: Db, nodeId: string, t: PortType): seq<PortRow>
  {
    Filter(db.ports, (p: PortRow) => p.nodeId == nodeId && p.portType == t)
  }

  /** The end-node test as written: a task type, or a view type compared with
      the COMPOSITE_END task code, which no view type has. */
  predicate IsEndNodeAsWritten(n: NodeRow)
  {
    n.taskType == End || n.viewType.Code() == CompositeEnd.Code()
  }

  /** The end-node test as intended: an END or a COMPOSITE_END node. */
  predicate IsEndNode(n: NodeRow)
  {
    n.taskType == End || n.taskType == CompositeEnd
  }

  /** The view-type half of the written test never holds, so it catches END
      nodes only; the intended one also catches COMPOSITE_END nodes. */
  lemma EndTestAsWritten(n: NodeRow)
    ensures IsEndNodeAsWritten(n) <==> n.taskType == End
    ensures IsEndNode(n) <==> IsEndNodeAsWritten(n) || n.taskType == CompositeEnd
  {
    ViewCodeNeverTaskCode(n.viewType, CompositeEnd);
  }

  /** The checks of PortService.add, in the source's order; `asWritten`
      picks the end-node test.  The output-port count is checked whatever
      the new port's type. */
  function AddChecks(db: Db, req: AddPortDto, asWritten: bool): Result<NodeRow>
  {
    if req.portType == InputPort && |PortsOf(db, req.nodeId, InputPort)| > 0 then
      Fail(Failure(BadRequest, InputPortTaken, [req.nodeId]))
    else
      match NodeById(db, req.nodeId)
      case None => Fail(Failure(TypeErr, NodeMissing, []))
      case Some(node) =>
        match CheckNameLength(req.properties.name, node.taskType, req.portType)
        case Throw(e) => Fail(e)
        case Pass =>
          if node.taskType == Context && req.portType == InputPort then
            Fail(Failure(BadRequest, ContextInputPort, []))
          else if (if asWritten then IsEndNodeAsWritten(node) else IsEndNode(node)) && req.portType == OutputPort then
            Fail(Failure(BadRequest, EndOutputPort, []))
          else if node.taskType in {Context, Http, DataMapping} && |PortsOf(db, req.nodeId, OutputPort)| >= 1 then
            Fail(Failure(BadRequest, OutputPortTaken, [node.taskType.Code(), req.nodeId]))
          else Ok(node)
  }

  /** PortService.add as written: once the checks pass, `req.toVsPort()` is
      called on a request object that has no such method, so the add fails
      before anything is written. */
  function AddStepAsWritten(db: Db, req: AddPortDto): Step
  {
    match AddChecks(db, req, true)
    case Fail(e) => Step(Throw(e), db)
    case Ok(_) => Step(Throw(Failure(TypeErr, ToVsPortMissing, [])), db)
  }

  /** As written, no add ever succeeds or writes anything. */
  lemma AddAsWrittenNeverAdds(db: Db, req: AddPortDto)
    ensures AddStepAsWritten(db, req).outcome.Throw?
    ensures AddStepAsWritten(db, req).db == db
    ensures AddChecks(db, req, true).Ok? ==> AddStepAsWritten(db, req).outcome.failure.kind == TypeErr
  {
  }

  /** The row the add creates: the request's columns on the node's project. */
  function NewPort(req: AddPortDto, node: NodeRow): PortRow
  {
    PortRow(req.id, node.projectId, req.nodeId, req.portType, req.properties)
  }

  /** PortService.add as intended: the checks with the intended end-node
      test, the row created (a taken id is refused by the store), then the
      update of the new port, whose failure leaves the row in place. */
  function AddStep(db: Db, req: AddPortDto, dates: DateChecks): Step
  {
    match AddChecks(db, req, false)
    case Fail(e) => Step(Throw(e), db)
    case Ok(node) =>
      if HasPort(db, req.id) then Step(Throw(Failure(Generic, KeyTaken, [])), db)
      else ModifyStep(db.(ports := db.ports + [NewPort(req, node)]), UpdatePortDto(req.id, req.properties), dates)
  }

  /** A COMPOSITE_END node with no ports yet takes an OUTPUT port under the
      written test and refuses it under the intended one. */
  lemma CompositeEndOutputPort(node: NodeRow, req: AddPortDto)
    requires node.taskType == CompositeEnd && req.nodeId == node.id && req.portType == OutputPort
    ensures AddChecks(Db([], [node], [], []), req, true) == Ok(node)
    ensures AddChecks(Db([], [node], [], []), req, false) == Fail(Failure(BadRequest, EndOutputPort, []))
  {
    EndTestAsWritten(node);
    assert PortsOf(Db([], [node], [], []), req.nodeId, OutputPort) == [];
  }

  /** No node has two INPUT ports. */
  predicate SingleInput(ports: seq<PortRow>)
  {
    forall i, j :: 0 <= i < j < |ports| && ports[i].portType == InputPort && ports[j].portType == InputPort
      ==> ports[i].nodeId != ports[j].nodeId
  }

  /** What an add that passes its checks guarantees: the row is created on
      the node's project and stays even when the update after it fails;
      the ports are otherwise untouched; the node is the one with the
      request's node id; an INPUT port is the node's first, is not on a
      CONTEXT node, an OUTPUT port is not on an END or COMPOSITE_END node;
      and a CONTEXT, HTTP or DATA_MAPPING node had no OUTPUT port yet. */
  lemma AddSpec(db: Db, req: AddPortDto, dates: DateChecks)
    requires AddChecks(db, req, false).Ok? && !HasPort(db, req.id)
    ensures var node := AddChecks(db, req, false).value;
      var after := AddStep(db, req, dates).db;
      && NodeById(db, req.nodeId) == Some(node)
      && after.ports == db.ports + [NewPort(req, node)]
      && (req.portType == InputPort ==>
            (node.taskType != Context
             && forall p :: p in db.ports && p.nodeId == req.nodeId ==> p.portType != InputPort))
      && (req.portType == OutputPort ==> !IsEndNode(node))
      && (node.taskType in {Context, Http, DataMapping} ==>
            forall p :: p in db.ports && p.nodeId == req.nodeId ==> p.portType != OutputPort)
  {
    var node := AddChecks(db, req, false).value;
    var db1 := db.(ports := db.ports + [NewPort(req, node)]);
    ModifyWrites(db1, UpdatePortDto(req.id, req.properties), dates);
    FilterMembers(db.ports, (p: PortRow) => p.nodeId == req.nodeId && p.portType == InputPort);
    FilterMembers(db.ports, (p: PortRow) => p.nodeId == req.nodeId && p.portType == OutputPort);
  }

  /** Adding a port keeps every node at one INPUT port at most. */
  lemma AddKeepsSingleInput(db: Db, req: AddPortDto, dates: DateChecks)
    requires SingleInput(db.ports)
    ensures SingleInput(AddStep(db, req, dates).db.ports)
  {
    if AddChecks(db, req, false).Ok? && !HasPort(db, req.id) {
      AddSpec(db, req, dates);
      var node := AddChecks(db, req, false).value;
      var ports := db.ports + [NewPort(req, node)];
      forall i, j | 0 <= i < j < |ports| && ports[i].portType == InputPort && ports[j].portType == InputPort
        ensures ports[i].nodeId != ports[j].nodeId
      {
        if j == |db.ports| {
          assert ports[i] in db.ports;
        }
      }
    }
  }

  /** PortService.add as intended, on the store. */
  method Add(store: Store, req: AddPortDto, dates: DateChecks) returns (o: Outcome)
    modifies store
    ensures Step(o, store.State()) == AddStep(old(store.State()), req, dates)
  {
    var db := store.State();
    var checked := AddChecks(db, req, false);
    if checked.Fail? {
      return Throw(checked.failure);
    }
    if HasPort(db, req.id) {
      return Throw(Failure(Generic, KeyTaken, []));
    }
    store.ports := store.ports + [NewPort(req, checked.value)];
    o := Modify(store, UpdatePortDto(req.id, req.properties), dates);
  }
}
