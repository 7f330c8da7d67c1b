// The enumerations of a route condition and their validators
// (libs/enum/src/port.route.enum.ts): the type a right-hand value must have,
// the comparison operators and the two sources a left-hand value is read
// from.  The type codes, operators and sources come from the port's JSON
// properties, so they are plain strings here and an unknown code is a case
// of its own.

module RouteEnum {
  import opened Wrappers
  import opened Strs

  /** VsPortRouteMetaDataTypeEnum. */
  datatype RouteDataType = TString | TInteger | TDouble | TDatetime
  {
    function Code(): string
    {
      match this
      case TString => "STRING"
      case TInteger => "INTEGER"
      case TDouble => "DOUBLE"
      case TDatetime => "DATETIME"
    }
  }

  /** The member whose code is `code`, if any. */
  function DataTypeOf(code: string): (r: Option<RouteDataType>)
    ensures r.Some? ==> r.value.Code() == code
    ensures r.None? ==> forall t: RouteDataType :: t.Code() != code
  {
    if code == "STRING" then Some(TString)
    else if code == "INTEGER" then Some(TInteger)
    else if code == "DOUBLE" then Some(TDouble)
    else if code == "DATETIME" then Some(TDatetime)
    else None
  }

  // ---------------------------------------------------------------------------
  // What the validators accept

  predicate IsDecimalDigit(c: char) { '0' <= c <= '9' }

  /** Every character is a digit of the given radix (2, 8, 10 or 16). */
  predicate AllDigits(s: string, radix: nat)
  {
    forall i :: 0 <= i < |s| ==>
      if radix == 16 then IsDecimalDigit(s[i]) || 'a' <= s[i] <= 'f' || 'A' <= s[i] <= 'F'
      else '0' <= s[i] && (s[i] as int) < ('0' as int) + radix
  }

  /** SignedInteger of ECMA-262: decimal digits with an optional sign. */
  predicate SignedDecimal(t: string)
  {
    if |t| > 0 && (t[0] == '+' || t[0] == '-') then |t| > 1 && AllDigits(t[1..], 10)
    else |t| > 0 && AllDigits(t, 10)
  }

  /** NonDecimalIntegerLiteral of ECMA-262: 0b, 0o or 0x (either case) and at
      least one digit of that radix; no sign. */
  predicate NonDecimal(t: string)
  {
    && |t| > 2 && t[0] == '0'
    && (|| ((t[1] == 'b' || t[1] == 'B') && AllDigits(t[2..], 2))
        || ((t[1] == 'o' || t[1] == 'O') && AllDigits(t[2..], 8))
        || ((t[1] == 'x' || t[1] == 'X') && AllDigits(t[2..], 16)))
  }

  /** `BigInt(s)` does not throw: after trimming white space the string is
      empty (which gives 0n), a signed decimal integer or a non-decimal
      literal (StringToBigInt, section 7.1.14 of ECMA-262). */
  predicate BigIntParses(s: string)
  {
    var t := Trim(s);
    t == "" || SignedDecimal(t) || NonDecimal(t)
  }

  /** `parseFloat(s)` is not NaN: after the leading white space there is a
      prefix that is a StrDecimalLiteral, that is an optional sign followed
      by "Infinity", a digit, or a point and a digit (section 19.2.4 of
      ECMA-262).  Which number it denotes does not matter here. */
  predicate FloatPrefix(s: string)
  {
    var t := TrimStart(s);
    var u := if |t| > 0 && (t[0] == '+' || t[0] == '-') then t[1..] else t;
    || (|u| > 0 && IsDecimalDigit(u[0]))
    || (|u| > 1 && u[0] == '.' && IsDecimalDigit(u[1]))
    || (|u| >= 8 && u[..8] == "Infinity")
  }

  /** The three date checks of the source, all foreign-library calendar
      logic: dayjs with the pattern `YYYY-MM-DD HH:mm:ss` (loose), the same
      in strict mode, and `Date.parse` being a number.  Each is given as a
      predicate on the value (None: the value is null). */
  datatype DateChecks = DateChecks(
    dayjsLoose: Option<string> -> bool,
    dayjsStrict: Option<string> -> bool,
    jsDate: Option<string> -> bool)

  /** Which date check a validator uses. */
  datatype DateMode = Loose | Strict | JsDate

  /** The value is of the type: INTEGER and DOUBLE need a string the number
      parser takes, DATETIME one the chosen date check takes, STRING
      anything but null. */
  predicate Accepts(t: RouteDataType, value: Option<string>, dates: DateChecks, mode: DateMode)
  {
    match t
    case TInteger => value.Some? && BigIntParses(value.value)
    case TDouble => FloatPrefix(value.GetOr("null"))
    case TDatetime =>
      (match mode
       case Loose => dates.dayjsLoose(value)
       case Strict => dates.dayjsStrict(value)
       case JsDate => dates.jsDate(value))
    case TString => value.Some?
  }

  const IllegalValue := "illegal value"
  const NullValue := "value must not be null"
  const UnsupportedDataType := "unsupported data type"

  /** The names an error message reports: the value (`null` when absent),
      the type code and the node id. */
  function ValueSubjects(value: Option<string>, dataType: string, nodeId: string): seq<string>
  {
    [value.GetOr("null"), dataType, nodeId]
  }

  /** The body the three validators share: a switch on the type code that
      throws an Error for a value of the wrong form, for a null STRING and
      for an unknown code. */
  function Check(value: Option<string>, dataType: string, nodeId: string, dates: DateChecks, mode: DateMode): Outcome
  {
    match DataTypeOf(dataType)
    case None => Throw(Failure(Generic, UnsupportedDataType, ValueSubjects(value, dataType, nodeId)))
    case Some(TString) =>
      if value.None? then Throw(Failure(Generic, NullValue, [dataType, nodeId])) else Pass
    case Some(t) =>
      if Accepts(t, value, dates, mode) then Pass
      else Throw(Failure(Generic, IllegalValue, ValueSubjects(value, dataType, nodeId)))
  }

  /** VsPortRouteMetaDataTypeValidator.validateAndThrowException: dates by
      loose dayjs parsing. */
  function ValidateAndThrow(value: Option<string>, dataType: string, nodeId: string, dates: DateChecks): Outcome
  {
    Check(value, dataType, nodeId, dates, Loose)
  }

  /** VsPortRouteMetaDataTypeValidator.match: whether the validator above
      returns without throwing. */
  function Match(value: Option<string>, dataType: string, nodeId: string, dates: DateChecks): bool
  {
    ValidateAndThrow(value, dataType, nodeId, dates).Pass?
  }

  /** validatePortRouteMetaDataType: dates by `Date.parse`. */
  function ValidatePortRouteMetaDataType(value: Option<string>, dataType: string, nodeId: string, dates: DateChecks): Outcome
  {
    Check(value, dataType, nodeId, dates, JsDate)
  }

  /** validateRouteMetaDataType: dates by strict dayjs parsing. */
  function ValidateRouteMetaDataType(value: Option<string>, dataType: string, nodeId: string, dates: DateChecks): Outcome
  {
    Check(value, dataType, nodeId, dates, Strict)
  }

  /** matchRouteMetaDataType: its own switch, answering instead of throwing;
      an unknown code answers false. */
  function MatchRouteMetaDataType(value: Option<string>, dataType: string, nodeId: string, dates: DateChecks): bool
  {
    match DataTypeOf(dataType)
    case Some(TInteger) => value.Some? && BigIntParses(value.value)
    case Some(TDouble) => FloatPrefix(value.GetOr("null"))
    case Some(TDatetime) => dates.dayjsStrict(value)
    case Some(TString) => value.Some?
    case None => false
  }

  /** A validator passes exactly for a known type code whose check accepts
      the value; otherwise it names the value, the code and the node, or,
      for a null STRING, the code and the node. */
  lemma CheckSpec(value: Option<string>, dataType: string, nodeId: string, dates: DateChecks, mode: DateMode)
    ensures Check(value, dataType, nodeId, dates, mode).Pass? <==>
      exists t: RouteDataType :: t.Code() == dataType && Accepts(t, value, dates, mode)
    ensures Check(value, dataType, nodeId, dates, mode).Throw? ==>
      var f := Check(value, dataType, nodeId, dates, mode).failure;
      && f.kind == Generic
      && (f.reason == UnsupportedDataType <==> DataTypeOf(dataType).None?)
      && (f.reason == NullValue <==> dataType == "STRING")
      && (f.reason == NullValue ==> f.subjects == [dataType, nodeId])
      && (f.reason != NullValue ==> f.subjects == ValueSubjects(value, dataType, nodeId))
  {
    if DataTypeOf(dataType).Some? {
      var t := DataTypeOf(dataType).value;
      if Accepts(t, value, dates, mode) {
        assert t.Code() == dataType;
      }
    }
  }

  /** For INTEGER each validator accepts exactly the strings BigInt parses;
      for STRING it refuses only null. */
  lemma IntegerAndStringRules(value: Option<string>, nodeId: string, dates: DateChecks, mode: DateMode)
    ensures Check(value, "INTEGER", nodeId, dates, mode).Pass? <==> value.Some? && BigIntParses(value.value)
    ensures Check(value, "STRING", nodeId, dates, mode).Pass? <==> value.Some?
  {
  }

  /** `match` answers true exactly when the class validator does not throw,
      and matchRouteMetaDataType, though written as its own switch, answers
      exactly what validateRouteMetaDataType decides. */
  lemma MatchAgreesWithValidators(value: Option<string>, dataType: string, nodeId: string, dates: DateChecks)
    ensures Match(value, dataType, nodeId, dates) <==> ValidateAndThrow(value, dataType, nodeId, dates).Pass?
    ensures MatchRouteMetaDataType(value, dataType, nodeId, dates) <==>
      ValidateRouteMetaDataType(value, dataType, nodeId, dates).Pass?
  {
  }

  /** The class validator and validateRouteMetaDataType agree except on a
      DATETIME value where loose and strict dayjs parsing disagree. */
  lemma LooseAndStrictDates(value: Option<string>, dataType: string, nodeId: string, dates: DateChecks)
    ensures dataType != "DATETIME" ==>
      ValidateAndThrow(value, dataType, nodeId, dates) == ValidateRouteMetaDataType(value, dataType, nodeId, dates)
    ensures dataType == "DATETIME" && dates.dayjsLoose(value) != dates.dayjsStrict(value) ==>
      ValidateAndThrow(value, dataType, nodeId, dates).Pass? != ValidateRouteMetaDataType(value, dataType, nodeId, dates).Pass?
  {
  }

  /** BigInt parses the empty string (to 0n), so an empty right-hand value
      passes the INTEGER check. */
  lemma BigIntTakesEmpty()
    ensures BigIntParses("")
    ensures Check(Some(""), "INTEGER", "", DateChecks(_ => false, _ => false, _ => false), Loose).Pass?
  {
  }

  // ---------------------------------------------------------------------------
  // Operators and sources

  /** VsPortRouteMetaOpTypeEnum. */
  datatype RouteOp = EQ | NE | GT | GE | LT | LE
  {
    function Code(): string
    {
      match this
      case EQ => "EQ"
      case NE => "NE"
      case GT => "GT"
      case GE => "GE"
      case LT => "LT"
      case LE => "LE"
    }

    /** VsPortRouteMetaOpTypeOperator: the JavaScript comparison. */
    function Operator(): string
    {
      match this
      case EQ => "=="
      case NE => "!="
      case GT => ">"
      case GE => ">="
      case LT => "<"
      case LE => "<="
    }
  }

  function RouteOpOf(code: string): (r: Option<RouteOp>)
    ensures r.Some? ==> r.value.Code() == code
    ensures r.None? ==> forall o: RouteOp :: o.Code() != code
  {
    if code == "EQ" then Some(EQ)
    else if code == "NE" then Some(NE)
    else if code == "GT" then Some(GT)
    else if code == "GE" then Some(GE)
    else if code == "LT" then Some(LT)
    else if code == "LE" then Some(LE)
    else None
  }

  /** `VsPortRouteMetaOpTypeOperator[op]` as the generated code receives it:
      an unknown code indexes nothing and is written as "undefined". */
  function OperatorText(op: string): string
  {
    match RouteOpOf(op)
    case Some(o) => o.Operator()
    case None => "undefined"
  }

  /** The operator table is total over the six operators: each code gives
      its operator's comparison, and distinct operators give distinct
      comparisons. */
  lemma OperatorTable()
    ensures forall o: RouteOp :: OperatorText(o.Code()) == o.Operator()
    ensures forall a: RouteOp, b: RouteOp :: a.Operator() == b.Operator() ==> a == b
  {
    forall o: RouteOp ensures OperatorText(o.Code()) == o.Operator() {
      assert RouteOpOf(o.Code()) == Some(o);
    }
  }

  /** VsPortRouteMetaSourceTypeEnum. */
  datatype RouteSource = ReqHeader | ReqParam
  {
    function Code(): string
    {
      match this
      case ReqHeader => "REQ_HEADER"
      case ReqParam => "REQ_PARAM"
    }

    /** VsPortRouteMetaSourceTypeExpression: the getter the generated code
        reads the left-hand value from. */
    function Expression(): string
    {
      match this
      case ReqHeader => ExpReqHeader
      case ReqParam => ExpReqParam
    }
  }

  const ExpReqHeader := "this.getRequestHeader()"
  const ExpReqParam := "this.getRequestParam()"

  /** `VsPortRouteMetaSourceTypeExpression[sourceType]`: "undefined" for an
      unknown code. */
  function SourceExpressionText(source: string): (r: string)
    ensures source == "REQ_HEADER" ==> r == ExpReqHeader
    ensures source == "REQ_PARAM" ==> r == ExpReqParam
    ensures source != "REQ_HEADER" && source != "REQ_PARAM" ==> r == "undefined"
  {
    if source == ReqHeader.Code() then ReqHeader.Expression()
    else if source == ReqParam.Code() then ReqParam.Expression()
    else "undefined"
  }
}
