// The properties object of a port as the editor (vs-adapter) receives and
// stores it (apps/vs-adapter/src/port/dto/VsPortProp.ts and the section
// classes beside it), the validation and defaults of its http section
// (apps/vs-adapter/src/port/dto/VsPortPropHttp.ts) and the conversion of an
// update request into a port row (apps/vs-adapter/src/port/dto/
// update-port.dto.ts).  A key missing from the JSON object is `None`.

module PortProps {
  import opened Wrappers

  /** One condition of a route port (VsPortPropRouteMeta); the codes are
      strings as the JSON holds them. */
  datatype RouteMeta = RouteMeta(
    source: string,
    key: Option<string>,
    dataType: string,
    op: string,
    rightValue: Option<string>)

  /** VsPortPropRoute. */
  datatype RouteProp = RouteProp(meta: Option<seq<RouteMeta>>)

  /** PathParam: a `{name}` segment of an HTTP port's url. */
  datatype PathParam = PathParam(name: Option<string>, defaultValue: Option<string>)

  /** VsPortPropHttp. */
  datatype HttpProp = HttpProp(
    httpCompApiId: Option<int>,
    pathParams: Option<seq<PathParam>>,
    httpMethod: Option<string>,
    url: Option<string>,
    requestTimeout: Option<int>,
    slidingWindowSize: Option<int>,
    minimumNumberOfCalls: Option<int>,
    failureRateThreshold: Option<int>,
    keepOpenStateInSeconds: Option<int>,
    permittedNumberOfCallsInHalfOpenState: Option<int>)

  /** VsPortPropContext. */
  datatype ContextProp = ContextProp(contextCompApiId: Option<int>, httpMethod: Option<string>, path: Option<string>)

  /** VsPortPropDataMapping, without its conversion tree. */
  datatype DataMappingProp = DataMappingProp(
    sourceApiType: Option<string>,
    targetApiType: Option<string>,
    sourceApiId: Option<int>,
    targetApiId: Option<int>)

  /** VsPortProp: the script of a plain script port and at most one section
      per component kind. */
  datatype VsPortProp = VsPortProp(
    script: Option<string>,
    additionDefine: Option<string>,
    name: Option<string>,
    order: int,
    route: Option<RouteProp>,
    http: Option<HttpProp>,
    context: Option<ContextProp>,
    dataMapping: Option<DataMappingProp>)

  // ---------------------------------------------------------------------------
  // The http section: defaults and bounds

  const DefaultRequestTimeout := 120
  const DefaultSlidingWindowSize := 100
  const DefaultMinimumNumberOfCalls := 50
  const DefaultFailureRateThreshold := 20
  const DefaultKeepOpenStateInSeconds := 60
  const DefaultPermittedCallsInHalfOpenState := 10

  /** The members of the DTO's own VsHttpMethodEnum. */
  predicate IsDtoMethod(m: string)
  {
    m == "GET" || m == "POST" || m == "PUT" || m == "DELETE" || m == "PATCH"
  }

  /** The breaker settings lie within their declared bounds. */
  predicate BreakerBounds(slidingWindowSize: int, minimumNumberOfCalls: int, failureRateThreshold: int,
                          keepOpenStateInSeconds: int, permittedNumberOfCallsInHalfOpenState: int)
  {
    && 1 <= slidingWindowSize <= 100
    && 1 <= minimumNumberOfCalls <= 50
    && 1 <= failureRateThreshold <= 100
    && 30 <= keepOpenStateInSeconds <= 1800
    && 1 <= permittedNumberOfCallsInHalfOpenState <= 100
  }

  /** A path parameter's name is between 1 and 64 characters long. */
  predicate PathParamValid(p: PathParam)
  {
    p.name.Some? && 1 <= |p.name.value| <= 64
  }

  /** The http section passes its validators: the api id and the four
      required breaker settings are present, every present setting is
      within its bounds, a present method is one of the enum's, and every
      path parameter has a valid name. */
  predicate HttpValid(h: HttpProp)
  {
    && h.httpCompApiId.Some?
    && (h.pathParams.Some? ==> forall i :: 0 <= i < |h.pathParams.value| ==> PathParamValid(h.pathParams.value[i]))
    && (h.httpMethod.Some? ==> IsDtoMethod(h.httpMethod.value))
    && (h.requestTimeout.Some? ==> 1 <= h.requestTimeout.value <= 120)
    && h.slidingWindowSize.Some? && h.minimumNumberOfCalls.Some? && h.failureRateThreshold.Some?
    && h.permittedNumberOfCallsInHalfOpenState.Some?
    && BreakerBounds(h.slidingWindowSize.value, h.minimumNumberOfCalls.value, h.failureRateThreshold.value,
                     h.keepOpenStateInSeconds.GetOr(DefaultKeepOpenStateInSeconds),
                     h.permittedNumberOfCallsInHalfOpenState.value)
  }

  /** The names of the http section's properties whose validators fail, in
      declaration order: what the validation pipe reports. */
  function HttpViolations(h: HttpProp): seq<string>
  {
    (if h.httpCompApiId.None? then ["httpCompApiId"] else [])
    + (if h.pathParams.Some? && exists i :: 0 <= i < |h.pathParams.value| && !PathParamValid(h.pathParams.value[i])
       then ["pathParams"] else [])
    + (if h.httpMethod.Some? && !IsDtoMethod(h.httpMethod.value) then ["method"] else [])
    + (if h.requestTimeout.Some? && !(1 <= h.requestTimeout.value <= 120) then ["requestTimeout"] else [])
    + (if h.slidingWindowSize.None? || !(1 <= h.slidingWindowSize.value <= 100) then ["slidingWindowSize"] else [])
    + (if h.minimumNumberOfCalls.None? || !(1 <= h.minimumNumberOfCalls.value <= 50) then ["minimumNumberOfCalls"] else [])
    + (if h.failureRateThreshold.None? || !(1 <= h.failureRateThreshold.value <= 100) then ["failureRateThreshold"] else [])
    + (if h.keepOpenStateInSeconds.Some? && !(30 <= h.keepOpenStateInSeconds.value <= 1800)
       then ["keepOpenStateInSeconds"] else [])
    + (if h.permittedNumberOfCallsInHalfOpenState.None? || !(1 <= h.permittedNumberOfCallsInHalfOpenState.value <= 100)
       then ["permittedNumberOfCallsInHalfOpenState"] else [])
  }

  /** A path parameter as the transformer builds it: a missing default value
      becomes the empty string. */
  function WithParamDefault(p: PathParam): (r: PathParam)
    ensures r.name == p.name
    ensures r.defaultValue == Some(p.defaultValue.GetOr(""))
  {
    PathParam(p.name, Some(p.defaultValue.GetOr("")))
  }

  /** The http section as the transformer builds it from the JSON object:
      a missing setting gets its initialiser's value. */
  function WithHttpDefaults(h: HttpProp): HttpProp
  {
    HttpProp(
      h.httpCompApiId,
      match h.pathParams
      case Some(ps) => Some(seq(|ps|, i requires 0 <= i < |ps| => WithParamDefault(ps[i])))
      case None => None,
      h.httpMethod,
      h.url,
      Some(h.requestTimeout.GetOr(DefaultRequestTimeout)),
      Some(h.slidingWindowSize.GetOr(DefaultSlidingWindowSize)),
      Some(h.minimumNumberOfCalls.GetOr(DefaultMinimumNumberOfCalls)),
      Some(h.failureRateThreshold.GetOr(DefaultFailureRateThreshold)),
      Some(h.keepOpenStateInSeconds.GetOr(DefaultKeepOpenStateInSeconds)),
      Some(h.permittedNumberOfCallsInHalfOpenState.GetOr(DefaultPermittedCallsInHalfOpenState)))
  }

  /** Transformation then validation: the section with its defaults, or a
      bad request naming every property that fails. */
  function ValidateHttp(h: HttpProp): Result<HttpProp>
  {
    var d := WithHttpDefaults(h);
    if |HttpViolations(d)| == 0 then Ok(d) else Fail(Failure(BadRequest, "validation failed", HttpViolations(d)))
  }

  /** The validators report nothing exactly when the section is valid. */
  lemma HttpViolationsSpec(h: HttpProp)
    ensures |HttpViolations(h)| == 0 <==> HttpValid(h)
  {
  }

  /** Every default lies within its own bounds: a section holding only its
      api id validates, and gets a timeout of 120 seconds, a window of 100
      calls, a minimum of 50 calls, a 20 percent threshold, 60 seconds open
      and 10 half-open calls. */
  lemma DefaultsValid(apiId: int)
    ensures ValidateHttp(HttpProp(Some(apiId), None, None, None, None, None, None, None, None, None))
      == Ok(HttpProp(Some(apiId), None, None, None, Some(120), Some(100), Some(50), Some(20), Some(60), Some(10)))
  {
    HttpViolationsSpec(WithHttpDefaults(HttpProp(Some(apiId), None, None, None, None, None, None, None, None, None)));
  }

  /** A section validates exactly when it has an api id and every value it
      gives is within bounds; the values it gives are kept and the missing
      ones take their defaults. */
  lemma ValidateHttpSpec(h: HttpProp)
    ensures ValidateHttp(h).Ok? <==>
      && h.httpCompApiId.Some?
      && (h.pathParams.Some? ==> forall i :: 0 <= i < |h.pathParams.value| ==> PathParamValid(h.pathParams.value[i]))
      && (h.httpMethod.Some? ==> IsDtoMethod(h.httpMethod.value))
      && (h.requestTimeout.Some? ==> 1 <= h.requestTimeout.value <= 120)
      && (h.slidingWindowSize.Some? ==> 1 <= h.slidingWindowSize.value <= 100)
      && (h.minimumNumberOfCalls.Some? ==> 1 <= h.minimumNumberOfCalls.value <= 50)
      && (h.failureRateThreshold.Some? ==> 1 <= h.failureRateThreshold.value <= 100)
      && (h.keepOpenStateInSeconds.Some? ==> 30 <= h.keepOpenStateInSeconds.value <= 1800)
      && (h.permittedNumberOfCallsInHalfOpenState.Some? ==> 1 <= h.permittedNumberOfCallsInHalfOpenState.value <= 100)
    ensures ValidateHttp(h).Ok? ==>
      var d := ValidateHttp(h).value;
      && d.requestTimeout == Some(h.requestTimeout.GetOr(120))
      && d.keepOpenStateInSeconds == Some(h.keepOpenStateInSeconds.GetOr(60))
      && d.slidingWindowSize == Some(h.slidingWindowSize.GetOr(100))
      && HttpValid(d)
    ensures ValidateHttp(h).Fail? ==> ValidateHttp(h).failure.kind == BadRequest
  {
    var d := WithHttpDefaults(h);
    HttpViolationsSpec(d);
    if h.pathParams.Some? {
      var ps := h.pathParams.value;
      forall i | 0 <= i < |ps| ensures PathParamValid(d.pathParams.value[i]) <==> PathParamValid(ps[i]) {
        assert d.pathParams.value[i] == WithParamDefault(ps[i]);
      }
    }
  }

  // ---------------------------------------------------------------------------
  // UpdatePortDto.toVsPort

  /** UpdatePortDto: the port id and its properties. */
  datatype UpdatePortDto = UpdatePortDto(id: string, properties: VsPortProp)

  /** The columns toVsPort fills; the others stay unset. */
  datatype PortColumns = PortColumns(
    id: string,
    httpMethod: Option<string>,
    path: Option<string>,
    requestTimeout: Option<int>,
    sourceApiType: Option<string>,
    sourceApiId: Option<int>,
    targetApiType: Option<string>,
    targetApiId: Option<int>,
    properties: Option<VsPortProp>)

  /** A VsPort entity being filled in. */
  class VsPort {
    var id: string
    var httpMethod: Option<string>
    var path: Option<string>
    var requestTimeout: Option<int>
    var sourceApiType: Option<string>
    var sourceApiId: Option<int>
    var targetApiType: Option<string>
    var targetApiId: Option<int>
    var properties: Option<VsPortProp>

    /** `new VsPort()`: every column unset (the id is the empty string). */
    constructor ()
      ensures Columns() == PortColumns("", None, None, None, None, None, None, None, None)
    {
      id := "";
      httpMethod := None;
      path := None;
      requestTimeout := None;
      sourceApiType := None;
      sourceApiId := None;
      targetApiType := None;
      targetApiId := None;
      properties := None;
    }

    function Columns(): PortColumns
      reads this
    {
      PortColumns(id, httpMethod, path, requestTimeout, sourceApiType, sourceApiId, targetApiType, targetApiId, properties)
    }
  }

  /** What toVsPort yields for a request. */
  function PortColumnsOf(dto: UpdatePortDto): PortColumns
  {
    var p := dto.properties;
    var httpMethod :=
      if p.http.Some? then p.http.value.httpMethod
      else if p.context.Some? then p.context.value.httpMethod
      else None;
    PortColumns(
      dto.id,
      httpMethod,
      if p.context.Some? then p.context.value.path else None,
      if p.http.Some? then p.http.value.requestTimeout else None,
      if p.dataMapping.Some? then p.dataMapping.value.sourceApiType else None,
      if p.dataMapping.Some? then p.dataMapping.value.sourceApiId else None,
      if p.dataMapping.Some? then p.dataMapping.value.targetApiType else None,
      if p.dataMapping.Some? then p.dataMapping.value.targetApiId else None,
      Some(p))
  }

  /** UpdatePortDto.toVsPort: a fresh entity, then the id, the context
      section's method and path, the http section's method and timeout (its
      method written over the context's), the data-mapping section's api
      columns and the properties, in that order. */
  method ToVsPort(dto: UpdatePortDto) returns (port: VsPort)
    ensures fresh(port)
    ensures port.Columns() == PortColumnsOf(dto)
  {
    port := new VsPort();
    port.id := dto.id;
    var p := dto.properties;
    if p.context.Some? {
      port.httpMethod := p.context.value.httpMethod;
      port.path := p.context.value.path;
    }
    if p.http.Some? {
      port.httpMethod := p.http.value.httpMethod;
      port.requestTimeout := p.http.value.requestTimeout;
    }
    if p.dataMapping.Some? {
      port.sourceApiType := p.dataMapping.value.sourceApiType;
      port.sourceApiId := p.dataMapping.value.sourceApiId;
      port.targetApiType := p.dataMapping.value.targetApiType;
      port.targetApiId := p.dataMapping.value.targetApiId;
    }
    port.properties := Some(p);
  }

  /** The id and the properties are always copied; the method is the http
      section's whenever there is one, even an absent one, and the context
      section's only without an http section; path, timeout and api columns
      come from their own sections and stay unset without them. */
  lemma PortColumnsSpec(dto: UpdatePortDto)
    ensures PortColumnsOf(dto).id == dto.id
    ensures PortColumnsOf(dto).properties == Some(dto.properties)
    ensures dto.properties.http.Some? ==> PortColumnsOf(dto).httpMethod == dto.properties.http.value.httpMethod
    ensures dto.properties.http.None? && dto.properties.context.Some? ==>
      PortColumnsOf(dto).httpMethod == dto.properties.context.value.httpMethod
    ensures dto.properties.http.None? && dto.properties.context.None? ==> PortColumnsOf(dto).httpMethod.None?
    ensures dto.properties.context.None? ==> PortColumnsOf(dto).path.None?
    ensures dto.properties.context.Some? ==> PortColumnsOf(dto).path == dto.properties.context.value.path
    ensures dto.properties.dataMapping.None? ==>
      && PortColumnsOf(dto).sourceApiType.None? && PortColumnsOf(dto).sourceApiId.None?
      && PortColumnsOf(dto).targetApiType.None? && PortColumnsOf(dto).targetApiId.None?
  {
  }
}
