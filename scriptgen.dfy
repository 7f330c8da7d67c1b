// The code generators of the flow compiler: each fills a template's `%s`
// holes by successive `replace('%s', ...)` calls.  With arguments free of `%`
// and `$` the result is the template's text with the arguments in its holes.

module ScriptGen {
  import opened Wrappers
  import opened Strs
  import opened Templates
  import opened ScriptTemplates

  /** The two copies of the flow utility.  They differ in the single-output
      call template, in the comment lines of the port-call template, and in how
      a port's properties are read. */
  datatype Variant = VsUtil | LibUtil(parse: string -> Parsed)

  /** What JSON.parse gives for a properties text (only the keys read here). */
  datatype Parsed =
    | ParseError
    | JsonNull
    | JsonObject(script: Option<string>, additionDefine: Option<string>)
    | JsonOther   // a number, a string, a boolean or an array: no properties

  function SingleOutputSegs(v: Variant): seq<string>
  {
    if v.VsUtil? then SingleOutputSegsVs() else SingleOutputSegsLib()
  }

  function MultiPortCallSegs(v: Variant): seq<string>
  {
    if v.VsUtil? then MultiPortCallSegsVs() else MultiPortCallSegsLib()
  }

  /** `t.replace('%s', args[0]).replace('%s', args[1])...` on the template
      whose text is `segs` joined by `%s`. */
  function Fill(segs: seq<string>, args: seq<string>): string
  {
    FormatSpec(Join(segs, "%s"), args)
  }

  /** Plain segments filled with plain arguments interleave them; a `%`-free
      first segment survives any filling. */
  lemma FillFacts(segs: seq<string>, args: seq<string>)
    requires |segs| > 0
    ensures |segs| == |args| + 1 && AllPlain(segs) && AllPlain(args) ==>
      Fill(segs, args) == Interleave(segs, args) && Plain(Fill(segs, args))
    ensures '%' !in segs[0] ==>
      |Fill(segs, args)| >= |segs[0]| && Fill(segs, args)[..|segs[0]|] == segs[0]
  {
    if |segs| == |args| + 1 && AllPlain(segs) && AllPlain(args) {
      PlainIsClean(segs);
      PlainIsClean(args);
      FillHoles(segs, args);
      InterleavePlain(segs, args);
    }
    if '%' !in segs[0] {
      var rest := if |segs| == 1 then "" else "%s" + Join(segs[1..], "%s");
      assert Join(segs, "%s") == segs[0] + rest;
      FormatKeepsPrefix(segs[0], rest, args);
    }
  }

  // ---------------------------------------------------------------------------
  // One-template generators, each followed by the text it produces from plain
  // arguments

  /** generateDataConvSourceCode. */
  function GenerateDataConv(sourceData: string): string
  {
    Fill(DataConvSegs(), [sourceData])
  }

  lemma DataConvText(sourceData: string)
    requires Plain(sourceData)
    ensures GenerateDataConv(sourceData) == Interleave(DataConvSegs(), [sourceData])
    ensures Plain(GenerateDataConv(sourceData))
  {
    DataConvPlain();
    FillFacts(DataConvSegs(), [sourceData]);
  }

  /** generateRouteDoubleCompareSourceCode: left value, then right value, then the operator, as the holes
      come. */
  function GenerateRouteDoubleCompare(leftV: string, cmp: string, rightV: string): string
  {
    Fill(RouteDoubleSegs(), [leftV, rightV, cmp])
  }

  lemma RouteDoubleCompareText(leftV: string, cmp: string, rightV: string)
    requires Plain(leftV) && Plain(cmp) && Plain(rightV)
    ensures GenerateRouteDoubleCompare(leftV, cmp, rightV) == Interleave(RouteDoubleSegs(), [leftV, rightV, cmp])
    ensures Plain(GenerateRouteDoubleCompare(leftV, cmp, rightV))
  {
    RouteDoublePlain();
    FillFacts(RouteDoubleSegs(), [leftV, rightV, cmp]);
  }

  /** generateRouteLongCompareSourceCode: left value, then right value, then the operator, as the holes
      come. */
  function GenerateRouteLongCompare(leftV: string, cmp: string, rightV: string): string
  {
    Fill(RouteLongSegs(), [leftV, rightV, cmp])
  }

  lemma RouteLongCompareText(leftV: string, cmp: string, rightV: string)
    requires Plain(leftV) && Plain(cmp) && Plain(rightV)
    ensures GenerateRouteLongCompare(leftV, cmp, rightV) == Interleave(RouteLongSegs(), [leftV, rightV, cmp])
    ensures Plain(GenerateRouteLongCompare(leftV, cmp, rightV))
  {
    RouteLongPlain();
    FillFacts(RouteLongSegs(), [leftV, rightV, cmp]);
  }

  /** generateRouteStringCompareSourceCode: left value, then right value, then the operator, as the holes
      come. */
  function GenerateRouteStringCompare(leftV: string, cmp: string, rightV: string): string
  {
    Fill(RouteStringSegs(), [leftV, rightV, cmp])
  }

  lemma RouteStringCompareText(leftV: string, cmp: string, rightV: string)
    requires Plain(leftV) && Plain(cmp) && Plain(rightV)
    ensures GenerateRouteStringCompare(leftV, cmp, rightV) == Interleave(RouteStringSegs(), [leftV, rightV, cmp])
    ensures Plain(GenerateRouteStringCompare(leftV, cmp, rightV))
  {
    RouteStringPlain();
    FillFacts(RouteStringSegs(), [leftV, rightV, cmp]);
  }

  /** generateRouteDatetimeCompareSourceCode: left value, then right value, then the operator, as the holes
      come. */
  function GenerateRouteDatetimeCompare(leftV: string, cmp: string, rightV: string): string
  {
    Fill(RouteDatetimeSegs(), [leftV, rightV, cmp])
  }

  lemma RouteDatetimeCompareText(leftV: string, cmp: string, rightV: string)
    requires Plain(leftV) && Plain(cmp) && Plain(rightV)
    ensures GenerateRouteDatetimeCompare(leftV, cmp, rightV) == Interleave(RouteDatetimeSegs(), [leftV, rightV, cmp])
    ensures Plain(GenerateRouteDatetimeCompare(leftV, cmp, rightV))
  {
    RouteDatetimePlain();
    FillFacts(RouteDatetimeSegs(), [leftV, rightV, cmp]);
  }

  /** generateReqHeaderDeleteSourceCode. */
  function GenerateReqHeaderDelete(key: string): string
  {
    Fill(ReqHeaderDelSegs(), [key])
  }

  lemma ReqHeaderDeleteText(key: string)
    requires Plain(key)
    ensures GenerateReqHeaderDelete(key) == Interleave(ReqHeaderDelSegs(), [key])
    ensures Plain(GenerateReqHeaderDelete(key))
  {
    ReqHeaderDelPlain();
    FillFacts(ReqHeaderDelSegs(), [key]);
  }

  /** generateReqHeaderSetSourceCode. */
  function GenerateReqHeaderSet(key: string, value: string): string
  {
    Fill(ReqHeaderSetSegs(), [key, value])
  }

  lemma ReqHeaderSetText(key: string, value: string)
    requires Plain(key) && Plain(value)
    ensures GenerateReqHeaderSet(key, value) == Interleave(ReqHeaderSetSegs(), [key, value])
    ensures Plain(GenerateReqHeaderSet(key, value))
  {
    ReqHeaderSetPlain();
    FillFacts(ReqHeaderSetSegs(), [key, value]);
  }

  /** generateRspHeaderDeleteSourceCode. */
  function GenerateRspHeaderDelete(key: string): string
  {
    Fill(RspHeaderDelSegs(), [key])
  }

  lemma RspHeaderDeleteText(key: string)
    requires Plain(key)
    ensures GenerateRspHeaderDelete(key) == Interleave(RspHeaderDelSegs(), [key])
    ensures Plain(GenerateRspHeaderDelete(key))
  {
    RspHeaderDelPlain();
    FillFacts(RspHeaderDelSegs(), [key]);
  }

  /** generateRspHeaderSetSourceCode. */
  function GenerateRspHeaderSet(key: string, value: string): string
  {
    Fill(RspHeaderSetSegs(), [key, value])
  }

  lemma RspHeaderSetText(key: string, value: string)
    requires Plain(key) && Plain(value)
    ensures GenerateRspHeaderSet(key, value) == Interleave(RspHeaderSetSegs(), [key, value])
    ensures Plain(GenerateRspHeaderSet(key, value))
  {
    RspHeaderSetPlain();
    FillFacts(RspHeaderSetSegs(), [key, value]);
  }

  /** generatePortBoolScriptSourceCode: a private boolean method named after
      the port, whose body is the port's script. */
  function GeneratePortBool(methodName: string, boolMethodImpl: string): string
  {
    Fill(MultiPortBoolSegs(), [methodName, boolMethodImpl])
  }

  lemma PortBoolText(methodName: string, boolMethodImpl: string)
    requires Plain(methodName) && Plain(boolMethodImpl)
    ensures GeneratePortBool(methodName, boolMethodImpl) == Interleave(MultiPortBoolSegs(), [methodName, boolMethodImpl])
    ensures Plain(GeneratePortBool(methodName, boolMethodImpl))
  {
    MultiPortBoolPlain();
    FillFacts(MultiPortBoolSegs(), [methodName, boolMethodImpl]);
  }

  /** generatePortCallScriptSourceCode: a guard calling the port's method that
      activates the given node and returns. */
  function GeneratePortCall(v: Variant, methodName: string, activateNodeId: string): string
  {
    Fill(MultiPortCallSegs(v), [methodName, activateNodeId])
  }

  lemma PortCallText(v: Variant, methodName: string, activateNodeId: string)
    requires Plain(methodName) && Plain(activateNodeId)
    ensures GeneratePortCall(v, methodName, activateNodeId)
      == Interleave(MultiPortCallSegs(v), [methodName, activateNodeId])
    ensures Plain(GeneratePortCall(v, methodName, activateNodeId))
  {
    MultiPortCallVsPlain();
    MultiPortCallLibPlain();
    FillFacts(MultiPortCallSegs(v), [methodName, activateNodeId]);
  }

  /** generatePathValExp: the request parameter of that name, or the default. */
  function GeneratePathValExp(pathVarName: string, defaultValue: string): string
  {
    Fill(PathValExpSegs(), [pathVarName, defaultValue])
  }

  lemma PathValExpText(pathVarName: string, defaultValue: string)
    requires Plain(pathVarName) && Plain(defaultValue)
    ensures GeneratePathValExp(pathVarName, defaultValue) == Interleave(PathValExpSegs(), [pathVarName, defaultValue])
    ensures Plain(GeneratePathValExp(pathVarName, defaultValue))
  {
    PathValExpPlain();
    FillFacts(PathValExpSegs(), [pathVarName, defaultValue]);
  }

  /** generatePathReplaceStatement: a statement replacing `{name}` in the url by
      the path value expression. */
  function GeneratePathReplaceStatement(pathVarName: string, defaultValue: string): string
  {
    var valExp := GeneratePathValExp(pathVarName, defaultValue);
    var bracket := "{" + pathVarName + "}";
    Fill(PathReplaceSegs(), [bracket, valExp])
  }

  lemma PathReplaceStatementText(pathVarName: string, defaultValue: string)
    requires Plain(pathVarName) && Plain(defaultValue)
    ensures GeneratePathReplaceStatement(pathVarName, defaultValue)
      == Interleave(PathReplaceSegs(), ["{" + pathVarName + "}", Interleave(PathValExpSegs(), [pathVarName, defaultValue])])
    ensures Plain(GeneratePathReplaceStatement(pathVarName, defaultValue))
  {
    PathValExpText(pathVarName, defaultValue);
    PathReplacePlain();
    var bracket := "{" + pathVarName + "}";
    assert Plain(bracket);
    FillFacts(PathReplaceSegs(), [bracket, GeneratePathValExp(pathVarName, defaultValue)]);
  }

  /** generatePathReplaceMethodDefine: the changeUrlWhenPathVariable method
      around the given statements. */
  function GeneratePathReplaceMethodDefine(methodBody: string): string
  {
    Fill(PathReplaceMethodSegs(), [methodBody])
  }

  lemma PathReplaceMethodDefineText(methodBody: string)
    requires Plain(methodBody)
    ensures GeneratePathReplaceMethodDefine(methodBody) == Interleave(PathReplaceMethodSegs(), [methodBody])
    ensures Plain(GeneratePathReplaceMethodDefine(methodBody))
  {
    PathReplaceMethodPlain();
    FillFacts(PathReplaceMethodSegs(), [methodBody]);
  }

  /** A text without `%` has no `%s` and no `%d` to replace. */
  lemma NoPercentNoReplace(s: string, pat: string, rep: string)
    requires |pat| > 0 && pat[0] == '%' && '%' !in s
    ensures ReplaceFirst(s, pat, rep) == s
  {
    forall j: nat ensures !OccursAt(s, pat, j) {
      if j + |pat| <= |s| {
        assert s[j..j + |pat|][0] == s[j] && s[j] in s;
      }
    }
    IndexOfIs(s, pat, None);
  }

  /** The two HTTP generators: `.replace('%s', url)` then
      `.replace('%d', timeout)`. */
  function FillHttp(template: string, url: string, requestTimeout: string): string
  {
    ReplaceFirst(ReplaceFirst(template, "%s", url), "%d", requestTimeout)
  }

  /** On a template with no `%` neither replacement changes anything. */
  lemma FillHttpNoHole(template: string, url: string, requestTimeout: string)
    requires '%' !in template
    ensures FillHttp(template, url, requestTimeout) == template
  {
    NoPercentNoReplace(template, "%s", url);
    NoPercentNoReplace(template, "%d", requestTimeout);
  }

  /** generateNodeHttpTaskGetScriptSourceCode. */
  function GenerateHttpGet(url: string, requestTimeout: string): string
  {
    FillHttp(HttpGetExec(), url, requestTimeout)
  }

  /** The GET template has neither hole, so the result is the template itself
      whatever the url and the timeout. */
  lemma HttpGetIgnoresArgs(url: string, requestTimeout: string)
    ensures GenerateHttpGet(url, requestTimeout) == HttpGetExec()
  {
    HttpGetExecPlain();
    FillHttpNoHole(HttpGetExec(), url, requestTimeout);
  }

  /** generateNodeHttpTaskPostScriptSourceCode. */
  function GenerateHttpPost(url: string, requestTimeout: string): string
  {
    FillHttp(HttpPostExec(), url, requestTimeout)
  }

  /** Likewise the POST template ignores both arguments. */
  lemma HttpPostIgnoresArgs(url: string, requestTimeout: string)
    ensures GenerateHttpPost(url, requestTimeout) == HttpPostExec()
  {
    HttpPostExecPlain();
    FillHttpNoHole(HttpPostExec(), url, requestTimeout);
  }

  // ---------------------------------------------------------------------------
  // Class generators

  /** The class text up to the first hole, which every filling keeps. */
  function ClassHead(): string { FlowNodesSegs()[0] }

  /** The class head holds a comment, so it is not blank. */
  lemma ClassHeadNotBlank(rest: string)
    ensures !IsBlank(ClassHead() + rest)
  {
    assert ClassHead()[5] == '/';
    NotBlankWith("", ClassHead(), rest, 5);
    assert "" + ClassHead() + rest == ClassHead() + rest;
  }

  function ClassName(nodeId: string): string { "FlowNode_" + nodeId }

  /** generateFlowNodeTaskSourceCodeWhenSingleOutput: the class with the call
      script and the extra members, and nothing in the second call slot. */
  function GenerateSingleOutput(nodeId: string, callScript: string, additionDefine: string): string
  {
    Fill(FlowNodesSegs(), [ClassName(nodeId), callScript, "", additionDefine])
  }

  /** generateFlowNodeTaskSourceCodeWhenMultiOutput: the call section, then the
      port methods, both inside `call()`, then the extra members. */
  function GenerateMultiOutput(nodeId: string, callScript: string, boolExp: string, additionDefine: string): string
  {
    Fill(FlowNodesSegs(), [ClassName(nodeId), callScript, boolExp, additionDefine])
  }

  /** A class text begins with the class head. */
  predicate HasClassHead(r: string)
  {
    |r| >= |ClassHead()| && r[..|ClassHead()|] == ClassHead()
  }

  /** Whatever the arguments, the text before the class name survives. */
  lemma SingleOutputHead(nodeId: string, callScript: string, additionDefine: string)
    ensures HasClassHead(GenerateSingleOutput(nodeId, callScript, additionDefine))
  {
    FlowNodesPlain();
    FillFacts(FlowNodesSegs(), [ClassName(nodeId), callScript, "", additionDefine]);
  }

  lemma MultiOutputHead(nodeId: string, callScript: string, boolExp: string, additionDefine: string)
    ensures HasClassHead(GenerateMultiOutput(nodeId, callScript, boolExp, additionDefine))
  {
    FlowNodesPlain();
    FillFacts(FlowNodesSegs(), [ClassName(nodeId), callScript, boolExp, additionDefine]);
  }

  lemma ClassArgsPlain(nodeId: string, callScript: string, boolExp: string, additionDefine: string)
    requires Plain(nodeId) && Plain(callScript) && Plain(boolExp) && Plain(additionDefine)
    ensures AllPlain([ClassName(nodeId), callScript, boolExp, additionDefine])
  {
  }

  /** With plain arguments the class is the template's text with the class
      name, the call body, an empty second body and the extra members in its
      four holes. */
  lemma SingleOutputText(nodeId: string, callScript: string, additionDefine: string)
    requires Plain(nodeId) && Plain(callScript) && Plain(additionDefine)
    ensures GenerateSingleOutput(nodeId, callScript, additionDefine)
      == Interleave(FlowNodesSegs(), [ClassName(nodeId), callScript, "", additionDefine])
  {
    FlowNodesPlain();
    ClassArgsPlain(nodeId, callScript, "", additionDefine);
    FillFacts(FlowNodesSegs(), [ClassName(nodeId), callScript, "", additionDefine]);
  }

  /** With plain arguments the multi-output class holds the boolean port
      methods in the second call slot. */
  lemma MultiOutputText(nodeId: string, callScript: string, boolExp: string, additionDefine: string)
    requires Plain(nodeId) && Plain(callScript) && Plain(boolExp) && Plain(additionDefine)
    ensures GenerateMultiOutput(nodeId, callScript, boolExp, additionDefine)
      == Interleave(FlowNodesSegs(), [ClassName(nodeId), callScript, boolExp, additionDefine])
  {
    FlowNodesPlain();
    ClassArgsPlain(nodeId, callScript, boolExp, additionDefine);
    FillFacts(FlowNodesSegs(), [ClassName(nodeId), callScript, boolExp, additionDefine]);
  }

  /** Every class text is non-blank. */
  lemma GeneratedNotBlank(r: string)
    requires HasClassHead(r)
    ensures !IsBlank(r) && Trim(r) != ""
  {
    assert r == ClassHead() + r[|ClassHead()|..];
    ClassHeadNotBlank(r[|ClassHead()|..]);
    TrimEmptyIffBlank(r);
  }
}
