// The code templates of the flow compiler, text for text, each split at its
// `%s` holes.  The text is cut into pieces of twelve characters, named
// `<Template><segment>_<piece>`, so that its plainness (no `%`, no `$`) can be
// checked piece by piece and then joined.

module ScriptTemplates {
  import opened Templates

  /** DATA_CONV_TEMPLATE: converts the source data to JSON. */
  function DataConv0_00(): string { "\n    // 数据转换" }
  function DataConv0_01(): string { "逻辑\n    const" }
  function DataConv0_02(): string { " sourceData " }
  function DataConv0_03(): string { "= " }
  function DataConv1_00(): string { ";\n    const " }
  function DataConv1_01(): string { "convertedDat" }
  function DataConv1_02(): string { "a = this.con" }
  function DataConv1_03(): string { "vertToJson(s" }
  function DataConv1_04(): string { "ourceData);\n" }
  function DataConv1_05(): string { "    this.out" }
  function DataConv1_06(): string { "putRequestBo" }
  function DataConv1_07(): string { "dy = convert" }
  function DataConv1_08(): string { "edData;\n  " }
  function DataConvSegs(): seq<string>
  {
    [
      ((DataConv0_00() + DataConv0_01()) + (DataConv0_02() + DataConv0_03())),
      ((((DataConv1_00() + DataConv1_01()) + DataConv1_02()) + (DataConv1_03() + DataConv1_04())) + ((DataConv1_05() + DataConv1_06()) + (DataConv1_07() + DataConv1_08())))
    ]
  }

  lemma DataConvPiece0()
    ensures PlainChars(((((DataConv1_00() + DataConv1_01()) + DataConv1_02()) + (DataConv1_03() + DataConv1_04())) + ((DataConv1_05() + DataConv1_06()) + (DataConv1_07() + DataConv1_08()))))
  {
    assert PlainChars(DataConv1_00());
    assert PlainChars(DataConv1_01());
    assert PlainChars(DataConv1_02());
    assert PlainChars(DataConv1_03());
    assert PlainChars(DataConv1_04());
    assert PlainChars(DataConv1_05());
    assert PlainChars(DataConv1_06());
    assert PlainChars(DataConv1_07());
    assert PlainChars(DataConv1_08());
    PlainCharsCat(DataConv1_00(), DataConv1_01());
    PlainCharsCat((DataConv1_00() + DataConv1_01()), DataConv1_02());
    PlainCharsCat(DataConv1_03(), DataConv1_04());
    PlainCharsCat(((DataConv1_00() + DataConv1_01()) + DataConv1_02()), (DataConv1_03() + DataConv1_04()));
    PlainCharsCat(DataConv1_05(), DataConv1_06());
    PlainCharsCat(DataConv1_07(), DataConv1_08());
    PlainCharsCat((DataConv1_05() + DataConv1_06()), (DataConv1_07() + DataConv1_08()));
    PlainCharsCat((((DataConv1_00() + DataConv1_01()) + DataConv1_02()) + (DataConv1_03() + DataConv1_04())), ((DataConv1_05() + DataConv1_06()) + (DataConv1_07() + DataConv1_08())));
  }

  lemma DataConvPlain()
    ensures AllPlain(DataConvSegs())
  {
    assert PlainChars(DataConv0_00());
    assert PlainChars(DataConv0_01());
    assert PlainChars(DataConv0_02());
    assert PlainChars(DataConv0_03());
    PlainCharsCat(DataConv0_00(), DataConv0_01());
    PlainCharsCat(DataConv0_02(), DataConv0_03());
    PlainCharsCat((DataConv0_00() + DataConv0_01()), (DataConv0_02() + DataConv0_03()));
    PlainCharsPlain(((DataConv0_00() + DataConv0_01()) + (DataConv0_02() + DataConv0_03())));
    DataConvPiece0();
    PlainCharsPlain(((((DataConv1_00() + DataConv1_01()) + DataConv1_02()) + (DataConv1_03() + DataConv1_04())) + ((DataConv1_05() + DataConv1_06()) + (DataConv1_07() + DataConv1_08()))));
  }

  /** ROUTE_DOUBLE_CMP_TEMPLATE: holes left value, right value, operator. */
  function RouteDouble0_00(): string { "\n    // 双精度数" }
  function RouteDouble0_01(): string { "值比较\n    cons" }
  function RouteDouble0_02(): string { "t leftValue " }
  function RouteDouble0_03(): string { "= parseFloat" }
  function RouteDouble0_04(): string { "(" }
  function RouteDouble1_00(): string { ") || 0;\n    " }
  function RouteDouble1_01(): string { "const rightV" }
  function RouteDouble1_02(): string { "alue = parse" }
  function RouteDouble1_03(): string { "Float(" }
  function RouteDouble2_00(): string { ") || 0;\n    " }
  function RouteDouble2_01(): string { "return leftV" }
  function RouteDouble2_02(): string { "alue " }
  function RouteDouble3_00(): string { " rightValue;" }
  function RouteDouble3_01(): string { "\n  " }
  function RouteDoubleSegs(): seq<string>
  {
    [
      (((RouteDouble0_00() + RouteDouble0_01()) + RouteDouble0_02()) + (RouteDouble0_03() + RouteDouble0_04())),
      ((RouteDouble1_00() + RouteDouble1_01()) + (RouteDouble1_02() + RouteDouble1_03())),
      ((RouteDouble2_00() + RouteDouble2_01()) + RouteDouble2_02()),
      (RouteDouble3_00() + RouteDouble3_01())
    ]
  }

  lemma RouteDoublePlain()
    ensures AllPlain(RouteDoubleSegs())
  {
    assert PlainChars(RouteDouble0_00());
    assert PlainChars(RouteDouble0_01());
    assert PlainChars(RouteDouble0_02());
    assert PlainChars(RouteDouble0_03());
    assert PlainChars(RouteDouble0_04());
    PlainCharsCat(RouteDouble0_00(), RouteDouble0_01());
    PlainCharsCat((RouteDouble0_00() + RouteDouble0_01()), RouteDouble0_02());
    PlainCharsCat(RouteDouble0_03(), RouteDouble0_04());
    PlainCharsCat(((RouteDouble0_00() + RouteDouble0_01()) + RouteDouble0_02()), (RouteDouble0_03() + RouteDouble0_04()));
    PlainCharsPlain((((RouteDouble0_00() + RouteDouble0_01()) + RouteDouble0_02()) + (RouteDouble0_03() + RouteDouble0_04())));
    assert PlainChars(RouteDouble1_00());
    assert PlainChars(RouteDouble1_01());
    assert PlainChars(RouteDouble1_02());
    assert PlainChars(RouteDouble1_03());
    PlainCharsCat(RouteDouble1_00(), RouteDouble1_01());
    PlainCharsCat(RouteDouble1_02(), RouteDouble1_03());
    PlainCharsCat((RouteDouble1_00() + RouteDouble1_01()), (RouteDouble1_02() + RouteDouble1_03()));
    PlainCharsPlain(((RouteDouble1_00() + RouteDouble1_01()) + (RouteDouble1_02() + RouteDouble1_03())));
    assert PlainChars(RouteDouble2_00());
    assert PlainChars(RouteDouble2_01());
    assert PlainChars(RouteDouble2_02());
    PlainCharsCat(RouteDouble2_00(), RouteDouble2_01());
    PlainCharsCat((RouteDouble2_00() + RouteDouble2_01()), RouteDouble2_02());
    PlainCharsPlain(((RouteDouble2_00() + RouteDouble2_01()) + RouteDouble2_02()));
    assert PlainChars(RouteDouble3_00());
    assert PlainChars(RouteDouble3_01());
    PlainCharsCat(RouteDouble3_00(), RouteDouble3_01());
    PlainCharsPlain((RouteDouble3_00() + RouteDouble3_01()));
  }

  /** ROUTE_LONG_CMP_TEMPLATE: holes left value, right value, operator. */
  function RouteLong0_00(): string { "\n    // 长整型数" }
  function RouteLong0_01(): string { "值比较\n    cons" }
  function RouteLong0_02(): string { "t leftValue " }
  function RouteLong0_03(): string { "= parseInt(" }
  function RouteLong1_00(): string { ") || 0;\n    " }
  function RouteLong1_01(): string { "const rightV" }
  function RouteLong1_02(): string { "alue = parse" }
  function RouteLong1_03(): string { "Int(" }
  function RouteLong2_00(): string { ") || 0;\n    " }
  function RouteLong2_01(): string { "return leftV" }
  function RouteLong2_02(): string { "alue " }
  function RouteLong3_00(): string { " rightValue;" }
  function RouteLong3_01(): string { "\n  " }
  function RouteLongSegs(): seq<string>
  {
    [
      ((RouteLong0_00() + RouteLong0_01()) + (RouteLong0_02() + RouteLong0_03())),
      ((RouteLong1_00() + RouteLong1_01()) + (RouteLong1_02() + RouteLong1_03())),
      ((RouteLong2_00() + RouteLong2_01()) + RouteLong2_02()),
      (RouteLong3_00() + RouteLong3_01())
    ]
  }

  lemma RouteLongPlain()
    ensures AllPlain(RouteLongSegs())
  {
    assert PlainChars(RouteLong0_00());
    assert PlainChars(RouteLong0_01());
    assert PlainChars(RouteLong0_02());
    assert PlainChars(RouteLong0_03());
    PlainCharsCat(RouteLong0_00(), RouteLong0_01());
    PlainCharsCat(RouteLong0_02(), RouteLong0_03());
    PlainCharsCat((RouteLong0_00() + RouteLong0_01()), (RouteLong0_02() + RouteLong0_03()));
    PlainCharsPlain(((RouteLong0_00() + RouteLong0_01()) + (RouteLong0_02() + RouteLong0_03())));
    assert PlainChars(RouteLong1_00());
    assert PlainChars(RouteLong1_01());
    assert PlainChars(RouteLong1_02());
    assert PlainChars(RouteLong1_03());
    PlainCharsCat(RouteLong1_00(), RouteLong1_01());
    PlainCharsCat(RouteLong1_02(), RouteLong1_03());
    PlainCharsCat((RouteLong1_00() + RouteLong1_01()), (RouteLong1_02() + RouteLong1_03()));
    PlainCharsPlain(((RouteLong1_00() + RouteLong1_01()) + (RouteLong1_02() + RouteLong1_03())));
    assert PlainChars(RouteLong2_00());
    assert PlainChars(RouteLong2_01());
    assert PlainChars(RouteLong2_02());
    PlainCharsCat(RouteLong2_00(), RouteLong2_01());
    PlainCharsCat((RouteLong2_00() + RouteLong2_01()), RouteLong2_02());
    PlainCharsPlain(((RouteLong2_00() + RouteLong2_01()) + RouteLong2_02()));
    assert PlainChars(RouteLong3_00());
    assert PlainChars(RouteLong3_01());
    PlainCharsCat(RouteLong3_00(), RouteLong3_01());
    PlainCharsPlain((RouteLong3_00() + RouteLong3_01()));
  }

  /** ROUTE_STRING_CMP_TEMPLATE: holes left value, right value, operator. */
  function RouteString0_00(): string { "\n    // 字符串比" }
  function RouteString0_01(): string { "较\n    const " }
  function RouteString0_02(): string { "leftValue = " }
  function RouteString0_03(): string { "String(" }
  function RouteString1_00(): string { " || '');\n   " }
  function RouteString1_01(): string { " const right" }
  function RouteString1_02(): string { "Value = Stri" }
  function RouteString1_03(): string { "ng(" }
  function RouteString2_00(): string { " || '');\n   " }
  function RouteString2_01(): string { " return left" }
  function RouteString2_02(): string { "Value " }
  function RouteString3_00(): string { " rightValue;" }
  function RouteString3_01(): string { "\n  " }
  function RouteStringSegs(): seq<string>
  {
    [
      ((RouteString0_00() + RouteString0_01()) + (RouteString0_02() + RouteString0_03())),
      ((RouteString1_00() + RouteString1_01()) + (RouteString1_02() + RouteString1_03())),
      ((RouteString2_00() + RouteString2_01()) + RouteString2_02()),
      (RouteString3_00() + RouteString3_01())
    ]
  }

  lemma RouteStringPlain()
    ensures AllPlain(RouteStringSegs())
  {
    assert PlainChars(RouteString0_00());
    assert PlainChars(RouteString0_01());
    assert PlainChars(RouteString0_02());
    assert PlainChars(RouteString0_03());
    PlainCharsCat(RouteString0_00(), RouteString0_01());
    PlainCharsCat(RouteString0_02(), RouteString0_03());
    PlainCharsCat((RouteString0_00() + RouteString0_01()), (RouteString0_02() + RouteString0_03()));
    PlainCharsPlain(((RouteString0_00() + RouteString0_01()) + (RouteString0_02() + RouteString0_03())));
    assert PlainChars(RouteString1_00());
    assert PlainChars(RouteString1_01());
    assert PlainChars(RouteString1_02());
    assert PlainChars(RouteString1_03());
    PlainCharsCat(RouteString1_00(), RouteString1_01());
    PlainCharsCat(RouteString1_02(), RouteString1_03());
    PlainCharsCat((RouteString1_00() + RouteString1_01()), (RouteString1_02() + RouteString1_03()));
    PlainCharsPlain(((RouteString1_00() + RouteString1_01()) + (RouteString1_02() + RouteString1_03())));
    assert PlainChars(RouteString2_00());
    assert PlainChars(RouteString2_01());
    assert PlainChars(RouteString2_02());
    PlainCharsCat(RouteString2_00(), RouteString2_01());
    PlainCharsCat((RouteString2_00() + RouteString2_01()), RouteString2_02());
    PlainCharsPlain(((RouteString2_00() + RouteString2_01()) + RouteString2_02()));
    assert PlainChars(RouteString3_00());
    assert PlainChars(RouteString3_01());
    PlainCharsCat(RouteString3_00(), RouteString3_01());
    PlainCharsPlain((RouteString3_00() + RouteString3_01()));
  }

  /** ROUTE_DATETIME_CMP_TEMPLATE: holes left value, right value, operator. */
  function RouteDatetime0_00(): string { "\n    // 日期时间" }
  function RouteDatetime0_01(): string { "比较\n    const" }
  function RouteDatetime0_02(): string { " leftValue =" }
  function RouteDatetime0_03(): string { " new Date(" }
  function RouteDatetime1_00(): string { " || 0).getTi" }
  function RouteDatetime1_01(): string { "me();\n    co" }
  function RouteDatetime1_02(): string { "nst rightVal" }
  function RouteDatetime1_03(): string { "ue = new Dat" }
  function RouteDatetime1_04(): string { "e(" }
  function RouteDatetime2_00(): string { " || 0).getTi" }
  function RouteDatetime2_01(): string { "me();\n    re" }
  function RouteDatetime2_02(): string { "turn leftVal" }
  function RouteDatetime2_03(): string { "ue " }
  function RouteDatetime3_00(): string { " rightValue;" }
  function RouteDatetime3_01(): string { "\n  " }
  function RouteDatetimeSegs(): seq<string>
  {
    [
      ((RouteDatetime0_00() + RouteDatetime0_01()) + (RouteDatetime0_02() + RouteDatetime0_03())),
      (((RouteDatetime1_00() + RouteDatetime1_01()) + RouteDatetime1_02()) + (RouteDatetime1_03() + RouteDatetime1_04())),
      ((RouteDatetime2_00() + RouteDatetime2_01()) + (RouteDatetime2_02() + RouteDatetime2_03())),
      (RouteDatetime3_00() + RouteDatetime3_01())
    ]
  }

  lemma RouteDatetimePiece0()
    ensures PlainChars(((RouteDatetime2_00() + RouteDatetime2_01()) + (RouteDatetime2_02() + RouteDatetime2_03())))
  {
    assert PlainChars(RouteDatetime2_00());
    assert PlainChars(RouteDatetime2_01());
    assert PlainChars(RouteDatetime2_02());
    assert PlainChars(RouteDatetime2_03());
    PlainCharsCat(RouteDatetime2_00(), RouteDatetime2_01());
    PlainCharsCat(RouteDatetime2_02(), RouteDatetime2_03());
    PlainCharsCat((RouteDatetime2_00() + RouteDatetime2_01()), (RouteDatetime2_02() + RouteDatetime2_03()));
  }

  lemma RouteDatetimePlain()
    ensures AllPlain(RouteDatetimeSegs())
  {
    assert PlainChars(RouteDatetime0_00());
    assert PlainChars(RouteDatetime0_01());
    assert PlainChars(RouteDatetime0_02());
    assert PlainChars(RouteDatetime0_03());
    PlainCharsCat(RouteDatetime0_00(), RouteDatetime0_01());
    PlainCharsCat(RouteDatetime0_02(), RouteDatetime0_03());
    PlainCharsCat((RouteDatetime0_00() + RouteDatetime0_01()), (RouteDatetime0_02() + RouteDatetime0_03()));
    PlainCharsPlain(((RouteDatetime0_00() + RouteDatetime0_01()) + (RouteDatetime0_02() + RouteDatetime0_03())));
    assert PlainChars(RouteDatetime1_00());
    assert PlainChars(RouteDatetime1_01());
    assert PlainChars(RouteDatetime1_02());
    assert PlainChars(RouteDatetime1_03());
    assert PlainChars(RouteDatetime1_04());
    PlainCharsCat(RouteDatetime1_00(), RouteDatetime1_01());
    PlainCharsCat((RouteDatetime1_00() + RouteDatetime1_01()), RouteDatetime1_02());
    PlainCharsCat(RouteDatetime1_03(), RouteDatetime1_04());
    PlainCharsCat(((RouteDatetime1_00() + RouteDatetime1_01()) + RouteDatetime1_02()), (RouteDatetime1_03() + RouteDatetime1_04()));
    PlainCharsPlain((((RouteDatetime1_00() + RouteDatetime1_01()) + RouteDatetime1_02()) + (RouteDatetime1_03() + RouteDatetime1_04())));
    RouteDatetimePiece0();
    PlainCharsPlain(((RouteDatetime2_00() + RouteDatetime2_01()) + (RouteDatetime2_02() + RouteDatetime2_03())));
    assert PlainChars(RouteDatetime3_00());
    assert PlainChars(RouteDatetime3_01());
    PlainCharsCat(RouteDatetime3_00(), RouteDatetime3_01());
    PlainCharsPlain((RouteDatetime3_00() + RouteDatetime3_01()));
  }

  /** REQ_HEADER_DEL_TEMPLATE: hole the header key. */
  function ReqHeaderDel0_00(): string { "\n    // 删除请求" }
  function ReqHeaderDel0_01(): string { "头\n    this.d" }
  function ReqHeaderDel0_02(): string { "eleteReqHead" }
  function ReqHeaderDel0_03(): string { "er('" }
  function ReqHeaderDel1_00(): string { "');\n  " }
  function ReqHeaderDelSegs(): seq<string>
  {
    [
      ((ReqHeaderDel0_00() + ReqHeaderDel0_01()) + (ReqHeaderDel0_02() + ReqHeaderDel0_03())),
      ReqHeaderDel1_00()
    ]
  }

  lemma ReqHeaderDelPlain()
    ensures AllPlain(ReqHeaderDelSegs())
  {
    assert PlainChars(ReqHeaderDel0_00());
    assert PlainChars(ReqHeaderDel0_01());
    assert PlainChars(ReqHeaderDel0_02());
    assert PlainChars(ReqHeaderDel0_03());
    PlainCharsCat(ReqHeaderDel0_00(), ReqHeaderDel0_01());
    PlainCharsCat(ReqHeaderDel0_02(), ReqHeaderDel0_03());
    PlainCharsCat((ReqHeaderDel0_00() + ReqHeaderDel0_01()), (ReqHeaderDel0_02() + ReqHeaderDel0_03()));
    PlainCharsPlain(((ReqHeaderDel0_00() + ReqHeaderDel0_01()) + (ReqHeaderDel0_02() + ReqHeaderDel0_03())));
    assert PlainChars(ReqHeaderDel1_00());
    PlainCharsPlain(ReqHeaderDel1_00());
  }

  /** REQ_HEADER_SET_TEMPLATE: holes key, value. */
  function ReqHeaderSet0_00(): string { "\n    // 设置请求" }
  function ReqHeaderSet0_01(): string { "头\n    this.s" }
  function ReqHeaderSet0_02(): string { "etReqHeader(" }
  function ReqHeaderSet0_03(): string { "'" }
  function ReqHeaderSet1_00(): string { "', " }
  function ReqHeaderSet2_00(): string { ");\n  " }
  function ReqHeaderSetSegs(): seq<string>
  {
    [
      ((ReqHeaderSet0_00() + ReqHeaderSet0_01()) + (ReqHeaderSet0_02() + ReqHeaderSet0_03())),
      ReqHeaderSet1_00(),
      ReqHeaderSet2_00()
    ]
  }

  lemma ReqHeaderSetPlain()
    ensures AllPlain(ReqHeaderSetSegs())
  {
    assert PlainChars(ReqHeaderSet0_00());
    assert PlainChars(ReqHeaderSet0_01());
    assert PlainChars(ReqHeaderSet0_02());
    assert PlainChars(ReqHeaderSet0_03());
    PlainCharsCat(ReqHeaderSet0_00(), ReqHeaderSet0_01());
    PlainCharsCat(ReqHeaderSet0_02(), ReqHeaderSet0_03());
    PlainCharsCat((ReqHeaderSet0_00() + ReqHeaderSet0_01()), (ReqHeaderSet0_02() + ReqHeaderSet0_03()));
    PlainCharsPlain(((ReqHeaderSet0_00() + ReqHeaderSet0_01()) + (ReqHeaderSet0_02() + ReqHeaderSet0_03())));
    assert PlainChars(ReqHeaderSet1_00());
    PlainCharsPlain(ReqHeaderSet1_00());
    assert PlainChars(ReqHeaderSet2_00());
    PlainCharsPlain(ReqHeaderSet2_00());
  }

  /** RSP_HEADER_DEL_TEMPLATE: hole the header key. */
  function RspHeaderDel0_00(): string { "\n    // 删除响应" }
  function RspHeaderDel0_01(): string { "头\n    this.d" }
  function RspHeaderDel0_02(): string { "eleteRspHead" }
  function RspHeaderDel0_03(): string { "er('" }
  function RspHeaderDel1_00(): string { "');\n  " }
  function RspHeaderDelSegs(): seq<string>
  {
    [
      ((RspHeaderDel0_00() + RspHeaderDel0_01()) + (RspHeaderDel0_02() + RspHeaderDel0_03())),
      RspHeaderDel1_00()
    ]
  }

  lemma RspHeaderDelPlain()
    ensures AllPlain(RspHeaderDelSegs())
  {
    assert PlainChars(RspHeaderDel0_00());
    assert PlainChars(RspHeaderDel0_01());
    assert PlainChars(RspHeaderDel0_02());
    assert PlainChars(RspHeaderDel0_03());
    PlainCharsCat(RspHeaderDel0_00(), RspHeaderDel0_01());
    PlainCharsCat(RspHeaderDel0_02(), RspHeaderDel0_03());
    PlainCharsCat((RspHeaderDel0_00() + RspHeaderDel0_01()), (RspHeaderDel0_02() + RspHeaderDel0_03()));
    PlainCharsPlain(((RspHeaderDel0_00() + RspHeaderDel0_01()) + (RspHeaderDel0_02() + RspHeaderDel0_03())));
    assert PlainChars(RspHeaderDel1_00());
    PlainCharsPlain(RspHeaderDel1_00());
  }

  /** RSP_HEADER_SET_TEMPLATE: holes key, value. */
  function RspHeaderSet0_00(): string { "\n    // 设置响应" }
  function RspHeaderSet0_01(): string { "头\n    this.s" }
  function RspHeaderSet0_02(): string { "etRspHeader(" }
  function RspHeaderSet0_03(): string { "'" }
  function RspHeaderSet1_00(): string { "', " }
  function RspHeaderSet2_00(): string { ");\n  " }
  function RspHeaderSetSegs(): seq<string>
  {
    [
      ((RspHeaderSet0_00() + RspHeaderSet0_01()) + (RspHeaderSet0_02() + RspHeaderSet0_03())),
      RspHeaderSet1_00(),
      RspHeaderSet2_00()
    ]
  }

  lemma RspHeaderSetPlain()
    ensures AllPlain(RspHeaderSetSegs())
  {
    assert PlainChars(RspHeaderSet0_00());
    assert PlainChars(RspHeaderSet0_01());
    assert PlainChars(RspHeaderSet0_02());
    assert PlainChars(RspHeaderSet0_03());
    PlainCharsCat(RspHeaderSet0_00(), RspHeaderSet0_01());
    PlainCharsCat(RspHeaderSet0_02(), RspHeaderSet0_03());
    PlainCharsCat((RspHeaderSet0_00() + RspHeaderSet0_01()), (RspHeaderSet0_02() + RspHeaderSet0_03()));
    PlainCharsPlain(((RspHeaderSet0_00() + RspHeaderSet0_01()) + (RspHeaderSet0_02() + RspHeaderSet0_03())));
    assert PlainChars(RspHeaderSet1_00());
    PlainCharsPlain(RspHeaderSet1_00());
    assert PlainChars(RspHeaderSet2_00());
    PlainCharsPlain(RspHeaderSet2_00());
  }

  /** MULTI_PORT_BOOL_METHOD_TEMPLATE: holes method name, method body. */
  function MultiPortBool0_00(): string { "\n    // 端口条件" }
  function MultiPortBool0_01(): string { "判断方法\n    pri" }
  function MultiPortBool0_02(): string { "vate " }
  function MultiPortBool1_00(): string { "(): boolean " }
  function MultiPortBool1_01(): string { "{\n      " }
  function MultiPortBool2_00(): string { "\n    }\n  " }
  function MultiPortBoolSegs(): seq<string>
  {
    [
      ((MultiPortBool0_00() + MultiPortBool0_01()) + MultiPortBool0_02()),
      (MultiPortBool1_00() + MultiPortBool1_01()),
      MultiPortBool2_00()
    ]
  }

  lemma MultiPortBoolPlain()
    ensures AllPlain(MultiPortBoolSegs())
  {
    assert PlainChars(MultiPortBool0_00());
    assert PlainChars(MultiPortBool0_01());
    assert PlainChars(MultiPortBool0_02());
    PlainCharsCat(MultiPortBool0_00(), MultiPortBool0_01());
    PlainCharsCat((MultiPortBool0_00() + MultiPortBool0_01()), MultiPortBool0_02());
    PlainCharsPlain(((MultiPortBool0_00() + MultiPortBool0_01()) + MultiPortBool0_02()));
    assert PlainChars(MultiPortBool1_00());
    assert PlainChars(MultiPortBool1_01());
    PlainCharsCat(MultiPortBool1_00(), MultiPortBool1_01());
    PlainCharsPlain((MultiPortBool1_00() + MultiPortBool1_01()));
    assert PlainChars(MultiPortBool2_00());
    PlainCharsPlain(MultiPortBool2_00());
  }

  /** MULTI_PORT_CALL_METHOD_TEMPLATE of the vs utility: holes method name, activated node id. */
  function MultiPortCallVs0_00(): string { "\n    // 端口调用" }
  function MultiPortCallVs0_01(): string { "方法\n    // me" }
  function MultiPortCallVs0_02(): string { "thodName为por" }
  function MultiPortCallVs0_03(): string { "tId，\n    // " }
  function MultiPortCallVs0_04(): string { "setActivated" }
  function MultiPortCallVs0_05(): string { "NodeId的值为当前l" }
  function MultiPortCallVs0_06(): string { "ink的endNodeI" }
  function MultiPortCallVs0_07(): string { "d\n    if (th" }
  function MultiPortCallVs0_08(): string { "is." }
  function MultiPortCallVs1_00(): string { "()) {\n      " }
  function MultiPortCallVs1_01(): string { "this.setActi" }
  function MultiPortCallVs1_02(): string { "vatedNodeId(" }
  function MultiPortCallVs1_03(): string { "'" }
  function MultiPortCallVs2_00(): string { "');\n      re" }
  function MultiPortCallVs2_01(): string { "turn;\n    }\n" }
  function MultiPortCallVs2_02(): string { "  " }
  function MultiPortCallSegsVs(): seq<string>
  {
    [
      ((((MultiPortCallVs0_00() + MultiPortCallVs0_01()) + MultiPortCallVs0_02()) + (MultiPortCallVs0_03() + MultiPortCallVs0_04())) + ((MultiPortCallVs0_05() + MultiPortCallVs0_06()) + (MultiPortCallVs0_07() + MultiPortCallVs0_08()))),
      ((MultiPortCallVs1_00() + MultiPortCallVs1_01()) + (MultiPortCallVs1_02() + MultiPortCallVs1_03())),
      ((MultiPortCallVs2_00() + MultiPortCallVs2_01()) + MultiPortCallVs2_02())
    ]
  }

  lemma MultiPortCallVsPiece0()
    ensures PlainChars(((MultiPortCallVs1_00() + MultiPortCallVs1_01()) + (MultiPortCallVs1_02() + MultiPortCallVs1_03())))
  {
    assert PlainChars(MultiPortCallVs1_00());
    assert PlainChars(MultiPortCallVs1_01());
    assert PlainChars(MultiPortCallVs1_02());
    assert PlainChars(MultiPortCallVs1_03());
    PlainCharsCat(MultiPortCallVs1_00(), MultiPortCallVs1_01());
    PlainCharsCat(MultiPortCallVs1_02(), MultiPortCallVs1_03());
    PlainCharsCat((MultiPortCallVs1_00() + MultiPortCallVs1_01()), (MultiPortCallVs1_02() + MultiPortCallVs1_03()));
  }

  lemma MultiPortCallVsPlain()
    ensures AllPlain(MultiPortCallSegsVs())
  {
    assert PlainChars(MultiPortCallVs0_00());
    assert PlainChars(MultiPortCallVs0_01());
    assert PlainChars(MultiPortCallVs0_02());
    assert PlainChars(MultiPortCallVs0_03());
    assert PlainChars(MultiPortCallVs0_04());
    assert PlainChars(MultiPortCallVs0_05());
    assert PlainChars(MultiPortCallVs0_06());
    assert PlainChars(MultiPortCallVs0_07());
    assert PlainChars(MultiPortCallVs0_08());
    PlainCharsCat(MultiPortCallVs0_00(), MultiPortCallVs0_01());
    PlainCharsCat((MultiPortCallVs0_00() + MultiPortCallVs0_01()), MultiPortCallVs0_02());
    PlainCharsCat(MultiPortCallVs0_03(), MultiPortCallVs0_04());
    PlainCharsCat(((MultiPortCallVs0_00() + MultiPortCallVs0_01()) + MultiPortCallVs0_02()), (MultiPortCallVs0_03() + MultiPortCallVs0_04()));
    PlainCharsCat(MultiPortCallVs0_05(), MultiPortCallVs0_06());
    PlainCharsCat(MultiPortCallVs0_07(), MultiPortCallVs0_08());
    PlainCharsCat((MultiPortCallVs0_05() + MultiPortCallVs0_06()), (MultiPortCallVs0_07() + MultiPortCallVs0_08()));
    PlainCharsCat((((MultiPortCallVs0_00() + MultiPortCallVs0_01()) + MultiPortCallVs0_02()) + (MultiPortCallVs0_03() + MultiPortCallVs0_04())), ((MultiPortCallVs0_05() + MultiPortCallVs0_06()) + (MultiPortCallVs0_07() + MultiPortCallVs0_08())));
    PlainCharsPlain(((((MultiPortCallVs0_00() + MultiPortCallVs0_01()) + MultiPortCallVs0_02()) + (MultiPortCallVs0_03() + MultiPortCallVs0_04())) + ((MultiPortCallVs0_05() + MultiPortCallVs0_06()) + (MultiPortCallVs0_07() + MultiPortCallVs0_08()))));
    MultiPortCallVsPiece0();
    PlainCharsPlain(((MultiPortCallVs1_00() + MultiPortCallVs1_01()) + (MultiPortCallVs1_02() + MultiPortCallVs1_03())));
    assert PlainChars(MultiPortCallVs2_00());
    assert PlainChars(MultiPortCallVs2_01());
    assert PlainChars(MultiPortCallVs2_02());
    PlainCharsCat(MultiPortCallVs2_00(), MultiPortCallVs2_01());
    PlainCharsCat((MultiPortCallVs2_00() + MultiPortCallVs2_01()), MultiPortCallVs2_02());
    PlainCharsPlain(((MultiPortCallVs2_00() + MultiPortCallVs2_01()) + MultiPortCallVs2_02()));
  }

  /** MULTI_PORT_CALL_METHOD_TEMPLATE of the lib utility (without the two explanatory comment lines). */
  function MultiPortCallLib0_00(): string { "\n    // 端口调用" }
  function MultiPortCallLib0_01(): string { "方法\n    if (t" }
  function MultiPortCallLib0_02(): string { "his." }
  function MultiPortCallLib1_00(): string { "()) {\n      " }
  function MultiPortCallLib1_01(): string { "this.setActi" }
  function MultiPortCallLib1_02(): string { "vatedNodeId(" }
  function MultiPortCallLib1_03(): string { "'" }
  function MultiPortCallLib2_00(): string { "');\n      re" }
  function MultiPortCallLib2_01(): string { "turn;\n    }\n" }
  function MultiPortCallLib2_02(): string { "  " }
  function MultiPortCallSegsLib(): seq<string>
  {
    [
      ((MultiPortCallLib0_00() + MultiPortCallLib0_01()) + MultiPortCallLib0_02()),
      ((MultiPortCallLib1_00() + MultiPortCallLib1_01()) + (MultiPortCallLib1_02() + MultiPortCallLib1_03())),
      ((MultiPortCallLib2_00() + MultiPortCallLib2_01()) + MultiPortCallLib2_02())
    ]
  }

  lemma MultiPortCallLibPlain()
    ensures AllPlain(MultiPortCallSegsLib())
  {
    assert PlainChars(MultiPortCallLib0_00());
    assert PlainChars(MultiPortCallLib0_01());
    assert PlainChars(MultiPortCallLib0_02());
    PlainCharsCat(MultiPortCallLib0_00(), MultiPortCallLib0_01());
    PlainCharsCat((MultiPortCallLib0_00() + MultiPortCallLib0_01()), MultiPortCallLib0_02());
    PlainCharsPlain(((MultiPortCallLib0_00() + MultiPortCallLib0_01()) + MultiPortCallLib0_02()));
    assert PlainChars(MultiPortCallLib1_00());
    assert PlainChars(MultiPortCallLib1_01());
    assert PlainChars(MultiPortCallLib1_02());
    assert PlainChars(MultiPortCallLib1_03());
    PlainCharsCat(MultiPortCallLib1_00(), MultiPortCallLib1_01());
    PlainCharsCat(MultiPortCallLib1_02(), MultiPortCallLib1_03());
    PlainCharsCat((MultiPortCallLib1_00() + MultiPortCallLib1_01()), (MultiPortCallLib1_02() + MultiPortCallLib1_03()));
    PlainCharsPlain(((MultiPortCallLib1_00() + MultiPortCallLib1_01()) + (MultiPortCallLib1_02() + MultiPortCallLib1_03())));
    assert PlainChars(MultiPortCallLib2_00());
    assert PlainChars(MultiPortCallLib2_01());
    assert PlainChars(MultiPortCallLib2_02());
    PlainCharsCat(MultiPortCallLib2_00(), MultiPortCallLib2_01());
    PlainCharsCat((MultiPortCallLib2_00() + MultiPortCallLib2_01()), MultiPortCallLib2_02());
    PlainCharsPlain(((MultiPortCallLib2_00() + MultiPortCallLib2_01()) + MultiPortCallLib2_02()));
  }

  /** NODE_HTTP_PATH_VAL_EXP_TEMPLATE: holes path variable name, default value. */
  function PathValExp0_00(): string { "\n    // 获取路径" }
  function PathValExp0_01(): string { "变量值\n    (thi" }
  function PathValExp0_02(): string { "s.requestPar" }
  function PathValExp0_03(): string { "ams['" }
  function PathValExp1_00(): string { "'] || " }
  function PathValExp2_00(): string { ")\n  " }
  function PathValExpSegs(): seq<string>
  {
    [
      ((PathValExp0_00() + PathValExp0_01()) + (PathValExp0_02() + PathValExp0_03())),
      PathValExp1_00(),
      PathValExp2_00()
    ]
  }

  lemma PathValExpPlain()
    ensures AllPlain(PathValExpSegs())
  {
    assert PlainChars(PathValExp0_00());
    assert PlainChars(PathValExp0_01());
    assert PlainChars(PathValExp0_02());
    assert PlainChars(PathValExp0_03());
    PlainCharsCat(PathValExp0_00(), PathValExp0_01());
    PlainCharsCat(PathValExp0_02(), PathValExp0_03());
    PlainCharsCat((PathValExp0_00() + PathValExp0_01()), (PathValExp0_02() + PathValExp0_03()));
    PlainCharsPlain(((PathValExp0_00() + PathValExp0_01()) + (PathValExp0_02() + PathValExp0_03())));
    assert PlainChars(PathValExp1_00());
    PlainCharsPlain(PathValExp1_00());
    assert PlainChars(PathValExp2_00());
    PlainCharsPlain(PathValExp2_00());
  }

  /** NODE_HTTP_PATH_REPLACE_TEMPLATE: holes placeholder, value expression. */
  function PathReplace0_00(): string { "\n    // 替换路径" }
  function PathReplace0_01(): string { "变量\n    url =" }
  function PathReplace0_02(): string { " url.replace" }
  function PathReplace0_03(): string { "('" }
  function PathReplace1_00(): string { "', " }
  function PathReplace2_00(): string { ");\n  " }
  function PathReplaceSegs(): seq<string>
  {
    [
      ((PathReplace0_00() + PathReplace0_01()) + (PathReplace0_02() + PathReplace0_03())),
      PathReplace1_00(),
      PathReplace2_00()
    ]
  }

  lemma PathReplacePlain()
    ensures AllPlain(PathReplaceSegs())
  {
    assert PlainChars(PathReplace0_00());
    assert PlainChars(PathReplace0_01());
    assert PlainChars(PathReplace0_02());
    assert PlainChars(PathReplace0_03());
    PlainCharsCat(PathReplace0_00(), PathReplace0_01());
    PlainCharsCat(PathReplace0_02(), PathReplace0_03());
    PlainCharsCat((PathReplace0_00() + PathReplace0_01()), (PathReplace0_02() + PathReplace0_03()));
    PlainCharsPlain(((PathReplace0_00() + PathReplace0_01()) + (PathReplace0_02() + PathReplace0_03())));
    assert PlainChars(PathReplace1_00());
    PlainCharsPlain(PathReplace1_00());
    assert PlainChars(PathReplace2_00());
    PlainCharsPlain(PathReplace2_00());
  }

  /** NODE_HTTP_PATH_REPLACE_METHOD_TEMPLATE: hole the method body. */
  function PathReplaceMethod0_00(): string { "\n    // 路径变量" }
  function PathReplaceMethod0_01(): string { "替换方法\n    pri" }
  function PathReplaceMethod0_02(): string { "vate changeU" }
  function PathReplaceMethod0_03(): string { "rlWhenPathVa" }
  function PathReplaceMethod0_04(): string { "riable(url: " }
  function PathReplaceMethod0_05(): string { "string): str" }
  function PathReplaceMethod0_06(): string { "ing {\n      " }
  function PathReplaceMethod1_00(): string { "\n      retur" }
  function PathReplaceMethod1_01(): string { "n url;\n    }" }
  function PathReplaceMethod1_02(): string { "\n  " }
  function PathReplaceMethodSegs(): seq<string>
  {
    [
      (((PathReplaceMethod0_00() + PathReplaceMethod0_01()) + (PathReplaceMethod0_02() + PathReplaceMethod0_03())) + ((PathReplaceMethod0_04() + PathReplaceMethod0_05()) + PathReplaceMethod0_06())),
      ((PathReplaceMethod1_00() + PathReplaceMethod1_01()) + PathReplaceMethod1_02())
    ]
  }

  lemma PathReplaceMethodPlain()
    ensures AllPlain(PathReplaceMethodSegs())
  {
    assert PlainChars(PathReplaceMethod0_00());
    assert PlainChars(PathReplaceMethod0_01());
    assert PlainChars(PathReplaceMethod0_02());
    assert PlainChars(PathReplaceMethod0_03());
    assert PlainChars(PathReplaceMethod0_04());
    assert PlainChars(PathReplaceMethod0_05());
    assert PlainChars(PathReplaceMethod0_06());
    PlainCharsCat(PathReplaceMethod0_00(), PathReplaceMethod0_01());
    PlainCharsCat(PathReplaceMethod0_02(), PathReplaceMethod0_03());
    PlainCharsCat((PathReplaceMethod0_00() + PathReplaceMethod0_01()), (PathReplaceMethod0_02() + PathReplaceMethod0_03()));
    PlainCharsCat(PathReplaceMethod0_04(), PathReplaceMethod0_05());
    PlainCharsCat((PathReplaceMethod0_04() + PathReplaceMethod0_05()), PathReplaceMethod0_06());
    PlainCharsCat(((PathReplaceMethod0_00() + PathReplaceMethod0_01()) + (PathReplaceMethod0_02() + PathReplaceMethod0_03())), ((PathReplaceMethod0_04() + PathReplaceMethod0_05()) + PathReplaceMethod0_06()));
    PlainCharsPlain((((PathReplaceMethod0_00() + PathReplaceMethod0_01()) + (PathReplaceMethod0_02() + PathReplaceMethod0_03())) + ((PathReplaceMethod0_04() + PathReplaceMethod0_05()) + PathReplaceMethod0_06())));
    assert PlainChars(PathReplaceMethod1_00());
    assert PlainChars(PathReplaceMethod1_01());
    assert PlainChars(PathReplaceMethod1_02());
    PlainCharsCat(PathReplaceMethod1_00(), PathReplaceMethod1_01());
    PlainCharsCat((PathReplaceMethod1_00() + PathReplaceMethod1_01()), PathReplaceMethod1_02());
    PlainCharsPlain(((PathReplaceMethod1_00() + PathReplaceMethod1_01()) + PathReplaceMethod1_02()));
  }

  /** SINGLE_OUTPUT_CALL_METHOD_TEMPLATE of the vs utility: `super.call()` then the port script. */
  function SingleOutputVs0_00(): string { "\n    super.c" }
  function SingleOutputVs0_01(): string { "all();\n    " }
  function SingleOutputVs1_00(): string { "\n  " }
  function SingleOutputSegsVs(): seq<string>
  {
    [
      (SingleOutputVs0_00() + SingleOutputVs0_01()),
      SingleOutputVs1_00()
    ]
  }

  lemma SingleOutputVsPlain()
    ensures AllPlain(SingleOutputSegsVs())
  {
    assert PlainChars(SingleOutputVs0_00());
    assert PlainChars(SingleOutputVs0_01());
    PlainCharsCat(SingleOutputVs0_00(), SingleOutputVs0_01());
    PlainCharsPlain((SingleOutputVs0_00() + SingleOutputVs0_01()));
    assert PlainChars(SingleOutputVs1_00());
    PlainCharsPlain(SingleOutputVs1_00());
  }

  /** SINGLE_OUTPUT_CALL_METHOD_TEMPLATE of the lib utility: the port script, then a request-body copy. */
  function SingleOutputLib0_00(): string { "\n    // 单输出端" }
  function SingleOutputLib0_01(): string { "口执行\n    " }
  function SingleOutputLib1_00(): string { "\n    this.ou" }
  function SingleOutputLib1_01(): string { "tputRequestB" }
  function SingleOutputLib1_02(): string { "ody = this.i" }
  function SingleOutputLib1_03(): string { "nputRequestB" }
  function SingleOutputLib1_04(): string { "ody;\n  " }
  function SingleOutputSegsLib(): seq<string>
  {
    [
      (SingleOutputLib0_00() + SingleOutputLib0_01()),
      (((SingleOutputLib1_00() + SingleOutputLib1_01()) + SingleOutputLib1_02()) + (SingleOutputLib1_03() + SingleOutputLib1_04()))
    ]
  }

  lemma SingleOutputLibPlain()
    ensures AllPlain(SingleOutputSegsLib())
  {
    assert PlainChars(SingleOutputLib0_00());
    assert PlainChars(SingleOutputLib0_01());
    PlainCharsCat(SingleOutputLib0_00(), SingleOutputLib0_01());
    PlainCharsPlain((SingleOutputLib0_00() + SingleOutputLib0_01()));
    assert PlainChars(SingleOutputLib1_00());
    assert PlainChars(SingleOutputLib1_01());
    assert PlainChars(SingleOutputLib1_02());
    assert PlainChars(SingleOutputLib1_03());
    assert PlainChars(SingleOutputLib1_04());
    PlainCharsCat(SingleOutputLib1_00(), SingleOutputLib1_01());
    PlainCharsCat((SingleOutputLib1_00() + SingleOutputLib1_01()), SingleOutputLib1_02());
    PlainCharsCat(SingleOutputLib1_03(), SingleOutputLib1_04());
    PlainCharsCat(((SingleOutputLib1_00() + SingleOutputLib1_01()) + SingleOutputLib1_02()), (SingleOutputLib1_03() + SingleOutputLib1_04()));
    PlainCharsPlain((((SingleOutputLib1_00() + SingleOutputLib1_01()) + SingleOutputLib1_02()) + (SingleOutputLib1_03() + SingleOutputLib1_04())));
  }

  /** FLOW_NODES_SCRIPT_TEMPLATE: holes class name, call body, second call body, extra members. */
  function FlowNodes0_00(): string { "\n    // 动态生成" }
  function FlowNodes0_01(): string { "的流程节点类\n    e" }
  function FlowNodes0_02(): string { "xport class " }
  function FlowNodes1_00(): string { " extends Flo" }
  function FlowNodes1_01(): string { "wNodeTask {\n" }
  function FlowNodes1_02(): string { "      constr" }
  function FlowNodes1_03(): string { "uctor(\n     " }
  function FlowNodes1_04(): string { "   nodeId: s" }
  function FlowNodes1_05(): string { "tring,\n     " }
  function FlowNodes1_06(): string { "   body: str" }
  function FlowNodes1_07(): string { "ing,\n       " }
  function FlowNodes1_08(): string { " requestHead" }
  function FlowNodes1_09(): string { "ers: Map<str" }
  function FlowNodes1_10(): string { "ing, string>" }
  function FlowNodes1_11(): string { ",\n        re" }
  function FlowNodes1_12(): string { "questParams:" }
  function FlowNodes1_13(): string { " Map<string," }
  function FlowNodes1_14(): string { " string>,\n  " }
  function FlowNodes1_15(): string { "      respon" }
  function FlowNodes1_16(): string { "seHeaders: M" }
  function FlowNodes1_17(): string { "ap<string, s" }
  function FlowNodes1_18(): string { "tring>\n     " }
  function FlowNodes1_19(): string { " ) {\n       " }
  function FlowNodes1_20(): string { " super(nodeI" }
  function FlowNodes1_21(): string { "d, body, req" }
  function FlowNodes1_22(): string { "uestHeaders," }
  function FlowNodes1_23(): string { " requestPara" }
  function FlowNodes1_24(): string { "ms, response" }
  function FlowNodes1_25(): string { "Headers);\n  " }
  function FlowNodes1_26(): string { "    }\n\n     " }
  function FlowNodes1_27(): string { " async call(" }
  function FlowNodes1_28(): string { "): Promise<v" }
  function FlowNodes1_29(): string { "oid> {\n     " }
  function FlowNodes1_30(): string { "   " }
  function FlowNodes2_00(): string { "\n        " }
  function FlowNodes3_00(): string { "\n      }\n\n  " }
  function FlowNodes3_01(): string { "    " }
  function FlowNodes4_00(): string { "\n    }\n  " }
  function FlowNodesSegs(): seq<string>
  {
    [
      ((FlowNodes0_00() + FlowNodes0_01()) + FlowNodes0_02()),
      ((((((FlowNodes1_00() + FlowNodes1_01()) + FlowNodes1_02()) + ((FlowNodes1_03() + FlowNodes1_04()) + FlowNodes1_05())) + (((FlowNodes1_06() + FlowNodes1_07()) + FlowNodes1_08()) + (FlowNodes1_09() + FlowNodes1_10()))) + ((((FlowNodes1_11() + FlowNodes1_12()) + FlowNodes1_13()) + ((FlowNodes1_14() + FlowNodes1_15()) + FlowNodes1_16())) + (((FlowNodes1_17() + FlowNodes1_18()) + FlowNodes1_19()) + (FlowNodes1_20() + FlowNodes1_21())))) + ((((FlowNodes1_22() + FlowNodes1_23()) + FlowNodes1_24()) + (FlowNodes1_25() + FlowNodes1_26())) + ((FlowNodes1_27() + FlowNodes1_28()) + (FlowNodes1_29() + FlowNodes1_30())))),
      FlowNodes2_00(),
      (FlowNodes3_00() + FlowNodes3_01()),
      FlowNodes4_00()
    ]
  }

  lemma FlowNodesPiece0()
    ensures PlainChars(((((FlowNodes1_00() + FlowNodes1_01()) + FlowNodes1_02()) + ((FlowNodes1_03() + FlowNodes1_04()) + FlowNodes1_05())) + (((FlowNodes1_06() + FlowNodes1_07()) + FlowNodes1_08()) + (FlowNodes1_09() + FlowNodes1_10()))))
  {
    assert PlainChars(FlowNodes1_00());
    assert PlainChars(FlowNodes1_01());
    assert PlainChars(FlowNodes1_02());
    assert PlainChars(FlowNodes1_03());
    assert PlainChars(FlowNodes1_04());
    assert PlainChars(FlowNodes1_05());
    assert PlainChars(FlowNodes1_06());
    assert PlainChars(FlowNodes1_07());
    assert PlainChars(FlowNodes1_08());
    assert PlainChars(FlowNodes1_09());
    assert PlainChars(FlowNodes1_10());
    PlainCharsCat(FlowNodes1_00(), FlowNodes1_01());
    PlainCharsCat((FlowNodes1_00() + FlowNodes1_01()), FlowNodes1_02());
    PlainCharsCat(FlowNodes1_03(), FlowNodes1_04());
    PlainCharsCat((FlowNodes1_03() + FlowNodes1_04()), FlowNodes1_05());
    PlainCharsCat(((FlowNodes1_00() + FlowNodes1_01()) + FlowNodes1_02()), ((FlowNodes1_03() + FlowNodes1_04()) + FlowNodes1_05()));
    PlainCharsCat(FlowNodes1_06(), FlowNodes1_07());
    PlainCharsCat((FlowNodes1_06() + FlowNodes1_07()), FlowNodes1_08());
    PlainCharsCat(FlowNodes1_09(), FlowNodes1_10());
    PlainCharsCat(((FlowNodes1_06() + FlowNodes1_07()) + FlowNodes1_08()), (FlowNodes1_09() + FlowNodes1_10()));
    PlainCharsCat((((FlowNodes1_00() + FlowNodes1_01()) + FlowNodes1_02()) + ((FlowNodes1_03() + FlowNodes1_04()) + FlowNodes1_05())), (((FlowNodes1_06() + FlowNodes1_07()) + FlowNodes1_08()) + (FlowNodes1_09() + FlowNodes1_10())));
  }

  lemma FlowNodesPiece1()
    ensures PlainChars(((((FlowNodes1_11() + FlowNodes1_12()) + FlowNodes1_13()) + ((FlowNodes1_14() + FlowNodes1_15()) + FlowNodes1_16())) + (((FlowNodes1_17() + FlowNodes1_18()) + FlowNodes1_19()) + (FlowNodes1_20() + FlowNodes1_21()))))
  {
    assert PlainChars(FlowNodes1_11());
    assert PlainChars(FlowNodes1_12());
    assert PlainChars(FlowNodes1_13());
    assert PlainChars(FlowNodes1_14());
    assert PlainChars(FlowNodes1_15());
    assert PlainChars(FlowNodes1_16());
    assert PlainChars(FlowNodes1_17());
    assert PlainChars(FlowNodes1_18());
    assert PlainChars(FlowNodes1_19());
    assert PlainChars(FlowNodes1_20());
    assert PlainChars(FlowNodes1_21());
    PlainCharsCat(FlowNodes1_11(), FlowNodes1_12());
    PlainCharsCat((FlowNodes1_11() + FlowNodes1_12()), FlowNodes1_13());
    PlainCharsCat(FlowNodes1_14(), FlowNodes1_15());
    PlainCharsCat((FlowNodes1_14() + FlowNodes1_15()), FlowNodes1_16());
    PlainCharsCat(((FlowNodes1_11() + FlowNodes1_12()) + FlowNodes1_13()), ((FlowNodes1_14() + FlowNodes1_15()) + FlowNodes1_16()));
    PlainCharsCat(FlowNodes1_17(), FlowNodes1_18());
    PlainCharsCat((FlowNodes1_17() + FlowNodes1_18()), FlowNodes1_19());
    PlainCharsCat(FlowNodes1_20(), FlowNodes1_21());
    PlainCharsCat(((FlowNodes1_17() + FlowNodes1_18()) + FlowNodes1_19()), (FlowNodes1_20() + FlowNodes1_21()));
    PlainCharsCat((((FlowNodes1_11() + FlowNodes1_12()) + FlowNodes1_13()) + ((FlowNodes1_14() + FlowNodes1_15()) + FlowNodes1_16())), (((FlowNodes1_17() + FlowNodes1_18()) + FlowNodes1_19()) + (FlowNodes1_20() + FlowNodes1_21())));
  }

  lemma FlowNodesPlain()
    ensures AllPlain(FlowNodesSegs())
  {
    assert PlainChars(FlowNodes0_00());
    assert PlainChars(FlowNodes0_01());
    assert PlainChars(FlowNodes0_02());
    PlainCharsCat(FlowNodes0_00(), FlowNodes0_01());
    PlainCharsCat((FlowNodes0_00() + FlowNodes0_01()), FlowNodes0_02());
    PlainCharsPlain(((FlowNodes0_00() + FlowNodes0_01()) + FlowNodes0_02()));
    FlowNodesPiece0();
    FlowNodesPiece1();
    PlainCharsCat(((((FlowNodes1_00() + FlowNodes1_01()) + FlowNodes1_02()) + ((FlowNodes1_03() + FlowNodes1_04()) + FlowNodes1_05())) + (((FlowNodes1_06() + FlowNodes1_07()) + FlowNodes1_08()) + (FlowNodes1_09() + FlowNodes1_10()))), ((((FlowNodes1_11() + FlowNodes1_12()) + FlowNodes1_13()) + ((FlowNodes1_14() + FlowNodes1_15()) + FlowNodes1_16())) + (((FlowNodes1_17() + FlowNodes1_18()) + FlowNodes1_19()) + (FlowNodes1_20() + FlowNodes1_21()))));
    assert PlainChars(FlowNodes1_22());
    assert PlainChars(FlowNodes1_23());
    assert PlainChars(FlowNodes1_24());
    assert PlainChars(FlowNodes1_25());
    assert PlainChars(FlowNodes1_26());
    assert PlainChars(FlowNodes1_27());
    assert PlainChars(FlowNodes1_28());
    assert PlainChars(FlowNodes1_29());
    assert PlainChars(FlowNodes1_30());
    PlainCharsCat(FlowNodes1_22(), FlowNodes1_23());
    PlainCharsCat((FlowNodes1_22() + FlowNodes1_23()), FlowNodes1_24());
    PlainCharsCat(FlowNodes1_25(), FlowNodes1_26());
    PlainCharsCat(((FlowNodes1_22() + FlowNodes1_23()) + FlowNodes1_24()), (FlowNodes1_25() + FlowNodes1_26()));
    PlainCharsCat(FlowNodes1_27(), FlowNodes1_28());
    PlainCharsCat(FlowNodes1_29(), FlowNodes1_30());
    PlainCharsCat((FlowNodes1_27() + FlowNodes1_28()), (FlowNodes1_29() + FlowNodes1_30()));
    PlainCharsCat((((FlowNodes1_22() + FlowNodes1_23()) + FlowNodes1_24()) + (FlowNodes1_25() + FlowNodes1_26())), ((FlowNodes1_27() + FlowNodes1_28()) + (FlowNodes1_29() + FlowNodes1_30())));
    PlainCharsCat((((((FlowNodes1_00() + FlowNodes1_01()) + FlowNodes1_02()) + ((FlowNodes1_03() + FlowNodes1_04()) + FlowNodes1_05())) + (((FlowNodes1_06() + FlowNodes1_07()) + FlowNodes1_08()) + (FlowNodes1_09() + FlowNodes1_10()))) + ((((FlowNodes1_11() + FlowNodes1_12()) + FlowNodes1_13()) + ((FlowNodes1_14() + FlowNodes1_15()) + FlowNodes1_16())) + (((FlowNodes1_17() + FlowNodes1_18()) + FlowNodes1_19()) + (FlowNodes1_20() + FlowNodes1_21())))), ((((FlowNodes1_22() + FlowNodes1_23()) + FlowNodes1_24()) + (FlowNodes1_25() + FlowNodes1_26())) + ((FlowNodes1_27() + FlowNodes1_28()) + (FlowNodes1_29() + FlowNodes1_30()))));
    PlainCharsPlain(((((((FlowNodes1_00() + FlowNodes1_01()) + FlowNodes1_02()) + ((FlowNodes1_03() + FlowNodes1_04()) + FlowNodes1_05())) + (((FlowNodes1_06() + FlowNodes1_07()) + FlowNodes1_08()) + (FlowNodes1_09() + FlowNodes1_10()))) + ((((FlowNodes1_11() + FlowNodes1_12()) + FlowNodes1_13()) + ((FlowNodes1_14() + FlowNodes1_15()) + FlowNodes1_16())) + (((FlowNodes1_17() + FlowNodes1_18()) + FlowNodes1_19()) + (FlowNodes1_20() + FlowNodes1_21())))) + ((((FlowNodes1_22() + FlowNodes1_23()) + FlowNodes1_24()) + (FlowNodes1_25() + FlowNodes1_26())) + ((FlowNodes1_27() + FlowNodes1_28()) + (FlowNodes1_29() + FlowNodes1_30())))));
    assert PlainChars(FlowNodes2_00());
    PlainCharsPlain(FlowNodes2_00());
    assert PlainChars(FlowNodes3_00());
    assert PlainChars(FlowNodes3_01());
    PlainCharsCat(FlowNodes3_00(), FlowNodes3_01());
    PlainCharsPlain((FlowNodes3_00() + FlowNodes3_01()));
    assert PlainChars(FlowNodes4_00());
    PlainCharsPlain(FlowNodes4_00());
  }

  /** DEFAULT_CALL_METHOD_SET_BODY: copies both input bodies to the outputs. */
  function DefaultCallBody_000(): string { "\n    // 默认输出" }
  function DefaultCallBody_001(): string { "设置\n    this." }
  function DefaultCallBody_002(): string { "outputReques" }
  function DefaultCallBody_003(): string { "tBody = this" }
  function DefaultCallBody_004(): string { ".inputReques" }
  function DefaultCallBody_005(): string { "tBody;\n    t" }
  function DefaultCallBody_006(): string { "his.outputRe" }
  function DefaultCallBody_007(): string { "sponseBody =" }
  function DefaultCallBody_008(): string { " this.inputR" }
  function DefaultCallBody_009(): string { "esponseBody;" }
  function DefaultCallBody_010(): string { "\n  " }
  function DefaultCallBody(): string
  {
    ((((DefaultCallBody_000() + DefaultCallBody_001()) + DefaultCallBody_002()) + ((DefaultCallBody_003() + DefaultCallBody_004()) + DefaultCallBody_005())) + (((DefaultCallBody_006() + DefaultCallBody_007()) + DefaultCallBody_008()) + (DefaultCallBody_009() + DefaultCallBody_010())))
  }

  lemma DefaultCallBodyPlain()
    ensures Plain(DefaultCallBody())
  {
    assert PlainChars(DefaultCallBody_000());
    assert PlainChars(DefaultCallBody_001());
    assert PlainChars(DefaultCallBody_002());
    assert PlainChars(DefaultCallBody_003());
    assert PlainChars(DefaultCallBody_004());
    assert PlainChars(DefaultCallBody_005());
    assert PlainChars(DefaultCallBody_006());
    assert PlainChars(DefaultCallBody_007());
    assert PlainChars(DefaultCallBody_008());
    assert PlainChars(DefaultCallBody_009());
    assert PlainChars(DefaultCallBody_010());
    PlainCharsCat(DefaultCallBody_000(), DefaultCallBody_001());
    PlainCharsCat((DefaultCallBody_000() + DefaultCallBody_001()), DefaultCallBody_002());
    PlainCharsCat(DefaultCallBody_003(), DefaultCallBody_004());
    PlainCharsCat((DefaultCallBody_003() + DefaultCallBody_004()), DefaultCallBody_005());
    PlainCharsCat(((DefaultCallBody_000() + DefaultCallBody_001()) + DefaultCallBody_002()), ((DefaultCallBody_003() + DefaultCallBody_004()) + DefaultCallBody_005()));
    PlainCharsCat(DefaultCallBody_006(), DefaultCallBody_007());
    PlainCharsCat((DefaultCallBody_006() + DefaultCallBody_007()), DefaultCallBody_008());
    PlainCharsCat(DefaultCallBody_009(), DefaultCallBody_010());
    PlainCharsCat(((DefaultCallBody_006() + DefaultCallBody_007()) + DefaultCallBody_008()), (DefaultCallBody_009() + DefaultCallBody_010()));
    PlainCharsCat((((DefaultCallBody_000() + DefaultCallBody_001()) + DefaultCallBody_002()) + ((DefaultCallBody_003() + DefaultCallBody_004()) + DefaultCallBody_005())), (((DefaultCallBody_006() + DefaultCallBody_007()) + DefaultCallBody_008()) + (DefaultCallBody_009() + DefaultCallBody_010())));
    PlainCharsPlain(DefaultCallBody());
  }

  /** NODE_HTTP_TASK_GET_EXEC_TEMPLATE of the vs utility: it has no hole; it reads `urlWithParams` and a fixed 5000 ms timeout at run time. */
  function HttpGetExec_000(): string { "\n         tr" }
  function HttpGetExec_001(): string { "y {\n        " }
  function HttpGetExec_002(): string { "  // 执行异步POS" }
  function HttpGetExec_003(): string { "T请求\n        " }
  function HttpGetExec_004(): string { "  const resp" }
  function HttpGetExec_005(): string { "onse: AxiosR" }
  function HttpGetExec_006(): string { "esponse = aw" }
  function HttpGetExec_007(): string { "ait AsyncHtt" }
  function HttpGetExec_008(): string { "pConnPoolUti" }
  function HttpGetExec_009(): string { "l.doGet(\n   " }
  function HttpGetExec_010(): string { "         url" }
  function HttpGetExec_011(): string { "WithParams,\n" }
  function HttpGetExec_012(): string { "            " }
  function HttpGetExec_013(): string { "5000,\n      " }
  function HttpGetExec_014(): string { "      header" }
  function HttpGetExec_015(): string { "Map,\n       " }
  function HttpGetExec_016(): string { "   );\n\n     " }
  function HttpGetExec_017(): string { "     const r" }
  function HttpGetExec_018(): string { "esponseCode " }
  function HttpGetExec_019(): string { "= response.s" }
  function HttpGetExec_020(): string { "tatus;\n     " }
  function HttpGetExec_021(): string { "     const r" }
  function HttpGetExec_022(): string { "esponseData " }
  function HttpGetExec_023(): string { "= response.d" }
  function HttpGetExec_024(): string { "ata;\n\n      " }
  function HttpGetExec_025(): string { "    // 检查响应状" }
  function HttpGetExec_026(): string { "态\n          " }
  function HttpGetExec_027(): string { "if (response" }
  function HttpGetExec_028(): string { "Code !== 200" }
  function HttpGetExec_029(): string { " || response" }
  function HttpGetExec_030(): string { "Data == null" }
  function HttpGetExec_031(): string { ") {\n        " }
  function HttpGetExec_032(): string { "    throw ne" }
  function HttpGetExec_033(): string { "w Error(`状态码" }
  function HttpGetExec_034(): string { "=${responseC" }
  function HttpGetExec_035(): string { "ode},响应体=${r" }
  function HttpGetExec_036(): string { "esponseData}" }
  function HttpGetExec_037(): string { "`);\n        " }
  function HttpGetExec_038(): string { "  }\n\n       " }
  function HttpGetExec_039(): string { "   // 设置响应体\n" }
  function HttpGetExec_040(): string { "          th" }
  function HttpGetExec_041(): string { "is.setOutput" }
  function HttpGetExec_042(): string { "ResponseBody" }
  function HttpGetExec_043(): string { "(\n          " }
  function HttpGetExec_044(): string { "  typeof res" }
  function HttpGetExec_045(): string { "ponseData ==" }
  function HttpGetExec_046(): string { "= 'string'\n " }
  function HttpGetExec_047(): string { "            " }
  function HttpGetExec_048(): string { " ? responseD" }
  function HttpGetExec_049(): string { "ata\n        " }
  function HttpGetExec_050(): string { "      : JSON" }
  function HttpGetExec_051(): string { ".stringify(r" }
  function HttpGetExec_052(): string { "esponseData)" }
  function HttpGetExec_053(): string { ",\n          " }
  function HttpGetExec_054(): string { ");\n        }" }
  function HttpGetExec_055(): string { " catch (erro" }
  function HttpGetExec_056(): string { "r) {\n       " }
  function HttpGetExec_057(): string { "   this.logg" }
  function HttpGetExec_058(): string { "er.error(\n  " }
  function HttpGetExec_059(): string { "          `f" }
  function HttpGetExec_060(): string { "ailed to req" }
  function HttpGetExec_061(): string { "uest ${urlWi" }
  function HttpGetExec_062(): string { "thParams}, n" }
  function HttpGetExec_063(): string { "odeId = ${th" }
  function HttpGetExec_064(): string { "is.getNodeId" }
  function HttpGetExec_065(): string { "()}`,\n      " }
  function HttpGetExec_066(): string { "      error," }
  function HttpGetExec_067(): string { "\n          )" }
  function HttpGetExec_068(): string { ";\n          " }
  function HttpGetExec_069(): string { "throw new Se" }
  function HttpGetExec_070(): string { "rviceUnavail" }
  function HttpGetExec_071(): string { "ableExceptio" }
  function HttpGetExec_072(): string { "n(\n         " }
  function HttpGetExec_073(): string { "   `请求节点[${t" }
  function HttpGetExec_074(): string { "his.getNodeN" }
  function HttpGetExec_075(): string { "ame()}]失败,UR" }
  function HttpGetExec_076(): string { "L=${urlWithP" }
  function HttpGetExec_077(): string { "arams},msg=$" }
  function HttpGetExec_078(): string { "{error.messa" }
  function HttpGetExec_079(): string { "ge}`,\n      " }
  function HttpGetExec_080(): string { "    );\n     " }
  function HttpGetExec_081(): string { "   }\n      }" }
  function HttpGetExec_082(): string { ";\n\n      // " }
  function HttpGetExec_083(): string { "执行请求（带熔断器支持）" }
  function HttpGetExec_084(): string { "\n      const" }
  function HttpGetExec_085(): string { " circuitBrea" }
  function HttpGetExec_086(): string { "ker = this.c" }
  function HttpGetExec_087(): string { "ircuitBreake" }
  function HttpGetExec_088(): string { "r;\n      if " }
  function HttpGetExec_089(): string { "(circuitBrea" }
  function HttpGetExec_090(): string { "ker) {\n     " }
  function HttpGetExec_091(): string { "   try {\n   " }
  function HttpGetExec_092(): string { "       // 使用" }
  function HttpGetExec_093(): string { "熔断器执行请求\n    " }
  function HttpGetExec_094(): string { "      //    " }
  function HttpGetExec_095(): string { "       - HTT" }
  function HttpGetExec_096(): string { "P请求只有在熔断器允许的" }
  function HttpGetExec_097(): string { "情况下才会执行\n    " }
  function HttpGetExec_098(): string { "      // - 资" }
  function HttpGetExec_099(): string { "源节省 : 熔断状态下不" }
  function HttpGetExec_100(): string { "会浪费网络资源和时间\n " }
  function HttpGetExec_101(): string { "         // " }
  function HttpGetExec_102(): string { "- 快速失败 : 熔断状" }
  function HttpGetExec_103(): string { "态下立即返回错误，不需要" }
  function HttpGetExec_104(): string { "等待超时\n       " }
  function HttpGetExec_105(): string { "   await cir" }
  function HttpGetExec_106(): string { "cuitBreaker." }
  function HttpGetExec_107(): string { "fire(runnabl" }
  function HttpGetExec_108(): string { "e);\n        " }
  function HttpGetExec_109(): string { "} catch (err" }
  function HttpGetExec_110(): string { "or) {\n      " }
  function HttpGetExec_111(): string { "    // 检查是否是" }
  function HttpGetExec_112(): string { "熔断器异常\n      " }
  function HttpGetExec_113(): string { "    if (\n   " }
  function HttpGetExec_114(): string { "         err" }
  function HttpGetExec_115(): string { "or.name === " }
  function HttpGetExec_116(): string { "'OpenCircuit" }
  function HttpGetExec_117(): string { "Error' ||\n  " }
  function HttpGetExec_118(): string { "          er" }
  function HttpGetExec_119(): string { "ror.message." }
  function HttpGetExec_120(): string { "includes('ci" }
  function HttpGetExec_121(): string { "rcuit')\n    " }
  function HttpGetExec_122(): string { "      ) {\n  " }
  function HttpGetExec_123(): string { "          th" }
  function HttpGetExec_124(): string { "is.logger.er" }
  function HttpGetExec_125(): string { "ror(\n       " }
  function HttpGetExec_126(): string { "       `fail" }
  function HttpGetExec_127(): string { "ed to reques" }
  function HttpGetExec_128(): string { "t ${urlWithP" }
  function HttpGetExec_129(): string { "arams}, node" }
  function HttpGetExec_130(): string { "Id = ${this." }
  function HttpGetExec_131(): string { "getNodeId()}" }
  function HttpGetExec_132(): string { ", because it" }
  function HttpGetExec_133(): string { " is in FUSED" }
  function HttpGetExec_134(): string { " state`,\n   " }
  function HttpGetExec_135(): string { "           e" }
  function HttpGetExec_136(): string { "rror,\n      " }
  function HttpGetExec_137(): string { "      );\n   " }
  function HttpGetExec_138(): string { "         thr" }
  function HttpGetExec_139(): string { "ow new Servi" }
  function HttpGetExec_140(): string { "ceUnavailabl" }
  function HttpGetExec_141(): string { "eException(\n" }
  function HttpGetExec_142(): string { "            " }
  function HttpGetExec_143(): string { "  `请求节点[${th" }
  function HttpGetExec_144(): string { "is.getNodeNa" }
  function HttpGetExec_145(): string { "me()}]失败,URL" }
  function HttpGetExec_146(): string { "=${urlWithPa" }
  function HttpGetExec_147(): string { "rams},msg=接口" }
  function HttpGetExec_148(): string { "已熔断`,\n      " }
  function HttpGetExec_149(): string { "      );\n   " }
  function HttpGetExec_150(): string { "       }\n   " }
  function HttpGetExec_151(): string { "       throw" }
  function HttpGetExec_152(): string { " error;\n    " }
  function HttpGetExec_153(): string { "    }\n      " }
  function HttpGetExec_154(): string { "} else {\n   " }
  function HttpGetExec_155(): string { "     // 直接执行" }
  function HttpGetExec_156(): string { "请求\n        a" }
  function HttpGetExec_157(): string { "wait runnabl" }
  function HttpGetExec_158(): string { "e();\n      }" }
  function HttpGetExec_159(): string { "\n    } catch" }
  function HttpGetExec_160(): string { " (error) {\n " }
  function HttpGetExec_161(): string { "     throw n" }
  function HttpGetExec_162(): string { "ew ServiceUn" }
  function HttpGetExec_163(): string { "availableExc" }
  function HttpGetExec_164(): string { "eption(\n    " }
  function HttpGetExec_165(): string { "    `请求节点[${" }
  function HttpGetExec_166(): string { "this.getNode" }
  function HttpGetExec_167(): string { "Name()}]失败,m" }
  function HttpGetExec_168(): string { "sg=${error.m" }
  function HttpGetExec_169(): string { "essage}`,\n  " }
  function HttpGetExec_170(): string { "    );\n    }" }
  function HttpGetExec_171(): string { "\n  " }
  function HttpGetExec(): string
  {
    ((((((((HttpGetExec_000() + HttpGetExec_001()) + HttpGetExec_002()) + ((HttpGetExec_003() + HttpGetExec_004()) + HttpGetExec_005())) + (((HttpGetExec_006() + HttpGetExec_007()) + HttpGetExec_008()) + ((HttpGetExec_009() + HttpGetExec_010()) + HttpGetExec_011()))) + ((((HttpGetExec_012() + HttpGetExec_013()) + HttpGetExec_014()) + ((HttpGetExec_015() + HttpGetExec_016()) + HttpGetExec_017())) + (((HttpGetExec_018() + HttpGetExec_019()) + HttpGetExec_020()) + ((HttpGetExec_021() + HttpGetExec_022()) + HttpGetExec_023())))) + (((((HttpGetExec_024() + HttpGetExec_025()) + HttpGetExec_026()) + ((HttpGetExec_027() + HttpGetExec_028()) + HttpGetExec_029())) + (((HttpGetExec_030() + HttpGetExec_031()) + HttpGetExec_032()) + ((HttpGetExec_033() + HttpGetExec_034()) + HttpGetExec_035()))) + ((((HttpGetExec_036() + HttpGetExec_037()) + HttpGetExec_038()) + ((HttpGetExec_039() + HttpGetExec_040()) + HttpGetExec_041())) + (((HttpGetExec_042() + HttpGetExec_043()) + HttpGetExec_044()) + ((HttpGetExec_045() + HttpGetExec_046()) + HttpGetExec_047()))))) + ((((((HttpGetExec_048() + HttpGetExec_049()) + HttpGetExec_050()) + ((HttpGetExec_051() + HttpGetExec_052()) + HttpGetExec_053())) + (((HttpGetExec_054() + HttpGetExec_055()) + HttpGetExec_056()) + ((HttpGetExec_057() + HttpGetExec_058()) + HttpGetExec_059()))) + ((((HttpGetExec_060() + HttpGetExec_061()) + HttpGetExec_062()) + ((HttpGetExec_063() + HttpGetExec_064()) + HttpGetExec_065())) + (((HttpGetExec_066() + HttpGetExec_067()) + HttpGetExec_068()) + ((HttpGetExec_069() + HttpGetExec_070()) + HttpGetExec_071())))) + (((((HttpGetExec_072() + HttpGetExec_073()) + HttpGetExec_074()) + ((HttpGetExec_075() + HttpGetExec_076()) + HttpGetExec_077())) + (((HttpGetExec_078() + HttpGetExec_079()) + HttpGetExec_080()) + ((HttpGetExec_081() + HttpGetExec_082()) + HttpGetExec_083()))) + ((((HttpGetExec_084() + HttpGetExec_085()) + HttpGetExec_086()) + ((HttpGetExec_087() + HttpGetExec_088()) + HttpGetExec_089())) + (((HttpGetExec_090() + HttpGetExec_091()) + HttpGetExec_092()) + ((HttpGetExec_093() + HttpGetExec_094()) + HttpGetExec_095())))))) + (((((((HttpGetExec_096() + HttpGetExec_097()) + HttpGetExec_098()) + ((HttpGetExec_099() + HttpGetExec_100()) + HttpGetExec_101())) + (((HttpGetExec_102() + HttpGetExec_103()) + HttpGetExec_104()) + ((HttpGetExec_105() + HttpGetExec_106()) + HttpGetExec_107()))) + ((((HttpGetExec_108() + HttpGetExec_109()) + HttpGetExec_110()) + ((HttpGetExec_111() + HttpGetExec_112()) + HttpGetExec_113())) + (((HttpGetExec_114() + HttpGetExec_115()) + HttpGetExec_116()) + ((HttpGetExec_117() + HttpGetExec_118()) + HttpGetExec_119())))) + (((((HttpGetExec_120() + HttpGetExec_121()) + HttpGetExec_122()) + ((HttpGetExec_123() + HttpGetExec_124()) + HttpGetExec_125())) + (((HttpGetExec_126() + HttpGetExec_127()) + HttpGetExec_128()) + ((HttpGetExec_129() + HttpGetExec_130()) + HttpGetExec_131()))) + ((((HttpGetExec_132() + HttpGetExec_133()) + HttpGetExec_134()) + ((HttpGetExec_135() + HttpGetExec_136()) + HttpGetExec_137())) + (((HttpGetExec_138() + HttpGetExec_139()) + HttpGetExec_140()) + ((HttpGetExec_141() + HttpGetExec_142()) + HttpGetExec_143()))))) + ((((((HttpGetExec_144() + HttpGetExec_145()) + HttpGetExec_146()) + ((HttpGetExec_147() + HttpGetExec_148()) + HttpGetExec_149())) + (((HttpGetExec_150() + HttpGetExec_151()) + HttpGetExec_152()) + ((HttpGetExec_153() + HttpGetExec_154()) + HttpGetExec_155()))) + ((((HttpGetExec_156() + HttpGetExec_157()) + HttpGetExec_158()) + ((HttpGetExec_159() + HttpGetExec_160()) + HttpGetExec_161())) + (((HttpGetExec_162() + HttpGetExec_163()) + HttpGetExec_164()) + ((HttpGetExec_165() + HttpGetExec_166()) + HttpGetExec_167())))) + ((HttpGetExec_168() + HttpGetExec_169()) + (HttpGetExec_170() + HttpGetExec_171())))))
  }

  lemma HttpGetExecPiece0()
    ensures NoPercentChars(((((HttpGetExec_012() + HttpGetExec_013()) + HttpGetExec_014()) + ((HttpGetExec_015() + HttpGetExec_016()) + HttpGetExec_017())) + (((HttpGetExec_018() + HttpGetExec_019()) + HttpGetExec_020()) + ((HttpGetExec_021() + HttpGetExec_022()) + HttpGetExec_023()))))
  {
    assert NoPercentChars(HttpGetExec_012());
    assert NoPercentChars(HttpGetExec_013());
    assert NoPercentChars(HttpGetExec_014());
    assert NoPercentChars(HttpGetExec_015());
    assert NoPercentChars(HttpGetExec_016());
    assert NoPercentChars(HttpGetExec_017());
    assert NoPercentChars(HttpGetExec_018());
    assert NoPercentChars(HttpGetExec_019());
    assert NoPercentChars(HttpGetExec_020());
    assert NoPercentChars(HttpGetExec_021());
    assert NoPercentChars(HttpGetExec_022());
    assert NoPercentChars(HttpGetExec_023());
    NoPercentCat(HttpGetExec_012(), HttpGetExec_013());
    NoPercentCat((HttpGetExec_012() + HttpGetExec_013()), HttpGetExec_014());
    NoPercentCat(HttpGetExec_015(), HttpGetExec_016());
    NoPercentCat((HttpGetExec_015() + HttpGetExec_016()), HttpGetExec_017());
    NoPercentCat(((HttpGetExec_012() + HttpGetExec_013()) + HttpGetExec_014()), ((HttpGetExec_015() + HttpGetExec_016()) + HttpGetExec_017()));
    NoPercentCat(HttpGetExec_018(), HttpGetExec_019());
    NoPercentCat((HttpGetExec_018() + HttpGetExec_019()), HttpGetExec_020());
    NoPercentCat(HttpGetExec_021(), HttpGetExec_022());
    NoPercentCat((HttpGetExec_021() + HttpGetExec_022()), HttpGetExec_023());
    NoPercentCat(((HttpGetExec_018() + HttpGetExec_019()) + HttpGetExec_020()), ((HttpGetExec_021() + HttpGetExec_022()) + HttpGetExec_023()));
    NoPercentCat((((HttpGetExec_012() + HttpGetExec_013()) + HttpGetExec_014()) + ((HttpGetExec_015() + HttpGetExec_016()) + HttpGetExec_017())), (((HttpGetExec_018() + HttpGetExec_019()) + HttpGetExec_020()) + ((HttpGetExec_021() + HttpGetExec_022()) + HttpGetExec_023())));
  }

  lemma HttpGetExecPiece1()
    ensures NoPercentChars(((((HttpGetExec_024() + HttpGetExec_025()) + HttpGetExec_026()) + ((HttpGetExec_027() + HttpGetExec_028()) + HttpGetExec_029())) + (((HttpGetExec_030() + HttpGetExec_031()) + HttpGetExec_032()) + ((HttpGetExec_033() + HttpGetExec_034()) + HttpGetExec_035()))))
  {
    assert NoPercentChars(HttpGetExec_024());
    assert NoPercentChars(HttpGetExec_025());
    assert NoPercentChars(HttpGetExec_026());
    assert NoPercentChars(HttpGetExec_027());
    assert NoPercentChars(HttpGetExec_028());
    assert NoPercentChars(HttpGetExec_029());
    assert NoPercentChars(HttpGetExec_030());
    assert NoPercentChars(HttpGetExec_031());
    assert NoPercentChars(HttpGetExec_032());
    assert NoPercentChars(HttpGetExec_033());
    assert NoPercentChars(HttpGetExec_034());
    assert NoPercentChars(HttpGetExec_035());
    NoPercentCat(HttpGetExec_024(), HttpGetExec_025());
    NoPercentCat((HttpGetExec_024() + HttpGetExec_025()), HttpGetExec_026());
    NoPercentCat(HttpGetExec_027(), HttpGetExec_028());
    NoPercentCat((HttpGetExec_027() + HttpGetExec_028()), HttpGetExec_029());
    NoPercentCat(((HttpGetExec_024() + HttpGetExec_025()) + HttpGetExec_026()), ((HttpGetExec_027() + HttpGetExec_028()) + HttpGetExec_029()));
    NoPercentCat(HttpGetExec_030(), HttpGetExec_031());
    NoPercentCat((HttpGetExec_030() + HttpGetExec_031()), HttpGetExec_032());
    NoPercentCat(HttpGetExec_033(), HttpGetExec_034());
    NoPercentCat((HttpGetExec_033() + HttpGetExec_034()), HttpGetExec_035());
    NoPercentCat(((HttpGetExec_030() + HttpGetExec_031()) + HttpGetExec_032()), ((HttpGetExec_033() + HttpGetExec_034()) + HttpGetExec_035()));
    NoPercentCat((((HttpGetExec_024() + HttpGetExec_025()) + HttpGetExec_026()) + ((HttpGetExec_027() + HttpGetExec_028()) + HttpGetExec_029())), (((HttpGetExec_030() + HttpGetExec_031()) + HttpGetExec_032()) + ((HttpGetExec_033() + HttpGetExec_034()) + HttpGetExec_035())));
  }

  lemma HttpGetExecPiece2()
    ensures NoPercentChars(((((HttpGetExec_036() + HttpGetExec_037()) + HttpGetExec_038()) + ((HttpGetExec_039() + HttpGetExec_040()) + HttpGetExec_041())) + (((HttpGetExec_042() + HttpGetExec_043()) + HttpGetExec_044()) + ((HttpGetExec_045() + HttpGetExec_046()) + HttpGetExec_047()))))
  {
    assert NoPercentChars(HttpGetExec_036());
    assert NoPercentChars(HttpGetExec_037());
    assert NoPercentChars(HttpGetExec_038());
    assert NoPercentChars(HttpGetExec_039());
    assert NoPercentChars(HttpGetExec_040());
    assert NoPercentChars(HttpGetExec_041());
    assert NoPercentChars(HttpGetExec_042());
    assert NoPercentChars(HttpGetExec_043());
    assert NoPercentChars(HttpGetExec_044());
    assert NoPercentChars(HttpGetExec_045());
    assert NoPercentChars(HttpGetExec_046());
    assert NoPercentChars(HttpGetExec_047());
    NoPercentCat(HttpGetExec_036(), HttpGetExec_037());
    NoPercentCat((HttpGetExec_036() + HttpGetExec_037()), HttpGetExec_038());
    NoPercentCat(HttpGetExec_039(), HttpGetExec_040());
    NoPercentCat((HttpGetExec_039() + HttpGetExec_040()), HttpGetExec_041());
    NoPercentCat(((HttpGetExec_036() + HttpGetExec_037()) + HttpGetExec_038()), ((HttpGetExec_039() + HttpGetExec_040()) + HttpGetExec_041()));
    NoPercentCat(HttpGetExec_042(), HttpGetExec_043());
    NoPercentCat((HttpGetExec_042() + HttpGetExec_043()), HttpGetExec_044());
    NoPercentCat(HttpGetExec_045(), HttpGetExec_046());
    NoPercentCat((HttpGetExec_045() + HttpGetExec_046()), HttpGetExec_047());
    NoPercentCat(((HttpGetExec_042() + HttpGetExec_043()) + HttpGetExec_044()), ((HttpGetExec_045() + HttpGetExec_046()) + HttpGetExec_047()));
    NoPercentCat((((HttpGetExec_036() + HttpGetExec_037()) + HttpGetExec_038()) + ((HttpGetExec_039() + HttpGetExec_040()) + HttpGetExec_041())), (((HttpGetExec_042() + HttpGetExec_043()) + HttpGetExec_044()) + ((HttpGetExec_045() + HttpGetExec_046()) + HttpGetExec_047())));
  }

  lemma HttpGetExecPart0()
    ensures NoPercentChars(((((((HttpGetExec_000() + HttpGetExec_001()) + HttpGetExec_002()) + ((HttpGetExec_003() + HttpGetExec_004()) + HttpGetExec_005())) + (((HttpGetExec_006() + HttpGetExec_007()) + HttpGetExec_008()) + ((HttpGetExec_009() + HttpGetExec_010()) + HttpGetExec_011()))) + ((((HttpGetExec_012() + HttpGetExec_013()) + HttpGetExec_014()) + ((HttpGetExec_015() + HttpGetExec_016()) + HttpGetExec_017())) + (((HttpGetExec_018() + HttpGetExec_019()) + HttpGetExec_020()) + ((HttpGetExec_021() + HttpGetExec_022()) + HttpGetExec_023())))) + (((((HttpGetExec_024() + HttpGetExec_025()) + HttpGetExec_026()) + ((HttpGetExec_027() + HttpGetExec_028()) + HttpGetExec_029())) + (((HttpGetExec_030() + HttpGetExec_031()) + HttpGetExec_032()) + ((HttpGetExec_033() + HttpGetExec_034()) + HttpGetExec_035()))) + ((((HttpGetExec_036() + HttpGetExec_037()) + HttpGetExec_038()) + ((HttpGetExec_039() + HttpGetExec_040()) + HttpGetExec_041())) + (((HttpGetExec_042() + HttpGetExec_043()) + HttpGetExec_044()) + ((HttpGetExec_045() + HttpGetExec_046()) + HttpGetExec_047()))))))
  {
    assert NoPercentChars(HttpGetExec_000());
    assert NoPercentChars(HttpGetExec_001());
    assert NoPercentChars(HttpGetExec_002());
    assert NoPercentChars(HttpGetExec_003());
    assert NoPercentChars(HttpGetExec_004());
    assert NoPercentChars(HttpGetExec_005());
    assert NoPercentChars(HttpGetExec_006());
    assert NoPercentChars(HttpGetExec_007());
    assert NoPercentChars(HttpGetExec_008());
    assert NoPercentChars(HttpGetExec_009());
    assert NoPercentChars(HttpGetExec_010());
    assert NoPercentChars(HttpGetExec_011());
    NoPercentCat(HttpGetExec_000(), HttpGetExec_001());
    NoPercentCat((HttpGetExec_000() + HttpGetExec_001()), HttpGetExec_002());
    NoPercentCat(HttpGetExec_003(), HttpGetExec_004());
    NoPercentCat((HttpGetExec_003() + HttpGetExec_004()), HttpGetExec_005());
    NoPercentCat(((HttpGetExec_000() + HttpGetExec_001()) + HttpGetExec_002()), ((HttpGetExec_003() + HttpGetExec_004()) + HttpGetExec_005()));
    NoPercentCat(HttpGetExec_006(), HttpGetExec_007());
    NoPercentCat((HttpGetExec_006() + HttpGetExec_007()), HttpGetExec_008());
    NoPercentCat(HttpGetExec_009(), HttpGetExec_010());
    NoPercentCat((HttpGetExec_009() + HttpGetExec_010()), HttpGetExec_011());
    NoPercentCat(((HttpGetExec_006() + HttpGetExec_007()) + HttpGetExec_008()), ((HttpGetExec_009() + HttpGetExec_010()) + HttpGetExec_011()));
    NoPercentCat((((HttpGetExec_000() + HttpGetExec_001()) + HttpGetExec_002()) + ((HttpGetExec_003() + HttpGetExec_004()) + HttpGetExec_005())), (((HttpGetExec_006() + HttpGetExec_007()) + HttpGetExec_008()) + ((HttpGetExec_009() + HttpGetExec_010()) + HttpGetExec_011())));
    HttpGetExecPiece0();
    NoPercentCat(((((HttpGetExec_000() + HttpGetExec_001()) + HttpGetExec_002()) + ((HttpGetExec_003() + HttpGetExec_004()) + HttpGetExec_005())) + (((HttpGetExec_006() + HttpGetExec_007()) + HttpGetExec_008()) + ((HttpGetExec_009() + HttpGetExec_010()) + HttpGetExec_011()))), ((((HttpGetExec_012() + HttpGetExec_013()) + HttpGetExec_014()) + ((HttpGetExec_015() + HttpGetExec_016()) + HttpGetExec_017())) + (((HttpGetExec_018() + HttpGetExec_019()) + HttpGetExec_020()) + ((HttpGetExec_021() + HttpGetExec_022()) + HttpGetExec_023()))));
    HttpGetExecPiece1();
    HttpGetExecPiece2();
    NoPercentCat(((((HttpGetExec_024() + HttpGetExec_025()) + HttpGetExec_026()) + ((HttpGetExec_027() + HttpGetExec_028()) + HttpGetExec_029())) + (((HttpGetExec_030() + HttpGetExec_031()) + HttpGetExec_032()) + ((HttpGetExec_033() + HttpGetExec_034()) + HttpGetExec_035()))), ((((HttpGetExec_036() + HttpGetExec_037()) + HttpGetExec_038()) + ((HttpGetExec_039() + HttpGetExec_040()) + HttpGetExec_041())) + (((HttpGetExec_042() + HttpGetExec_043()) + HttpGetExec_044()) + ((HttpGetExec_045() + HttpGetExec_046()) + HttpGetExec_047()))));
    NoPercentCat((((((HttpGetExec_000() + HttpGetExec_001()) + HttpGetExec_002()) + ((HttpGetExec_003() + HttpGetExec_004()) + HttpGetExec_005())) + (((HttpGetExec_006() + HttpGetExec_007()) + HttpGetExec_008()) + ((HttpGetExec_009() + HttpGetExec_010()) + HttpGetExec_011()))) + ((((HttpGetExec_012() + HttpGetExec_013()) + HttpGetExec_014()) + ((HttpGetExec_015() + HttpGetExec_016()) + HttpGetExec_017())) + (((HttpGetExec_018() + HttpGetExec_019()) + HttpGetExec_020()) + ((HttpGetExec_021() + HttpGetExec_022()) + HttpGetExec_023())))), (((((HttpGetExec_024() + HttpGetExec_025()) + HttpGetExec_026()) + ((HttpGetExec_027() + HttpGetExec_028()) + HttpGetExec_029())) + (((HttpGetExec_030() + HttpGetExec_031()) + HttpGetExec_032()) + ((HttpGetExec_033() + HttpGetExec_034()) + HttpGetExec_035()))) + ((((HttpGetExec_036() + HttpGetExec_037()) + HttpGetExec_038()) + ((HttpGetExec_039() + HttpGetExec_040()) + HttpGetExec_041())) + (((HttpGetExec_042() + HttpGetExec_043()) + HttpGetExec_044()) + ((HttpGetExec_045() + HttpGetExec_046()) + HttpGetExec_047())))));
  }

  lemma HttpGetExecPiece3()
    ensures NoPercentChars(((((HttpGetExec_060() + HttpGetExec_061()) + HttpGetExec_062()) + ((HttpGetExec_063() + HttpGetExec_064()) + HttpGetExec_065())) + (((HttpGetExec_066() + HttpGetExec_067()) + HttpGetExec_068()) + ((HttpGetExec_069() + HttpGetExec_070()) + HttpGetExec_071()))))
  {
    assert NoPercentChars(HttpGetExec_060());
    assert NoPercentChars(HttpGetExec_061());
    assert NoPercentChars(HttpGetExec_062());
    assert NoPercentChars(HttpGetExec_063());
    assert NoPercentChars(HttpGetExec_064());
    assert NoPercentChars(HttpGetExec_065());
    assert NoPercentChars(HttpGetExec_066());
    assert NoPercentChars(HttpGetExec_067());
    assert NoPercentChars(HttpGetExec_068());
    assert NoPercentChars(HttpGetExec_069());
    assert NoPercentChars(HttpGetExec_070());
    assert NoPercentChars(HttpGetExec_071());
    NoPercentCat(HttpGetExec_060(), HttpGetExec_061());
    NoPercentCat((HttpGetExec_060() + HttpGetExec_061()), HttpGetExec_062());
    NoPercentCat(HttpGetExec_063(), HttpGetExec_064());
    NoPercentCat((HttpGetExec_063() + HttpGetExec_064()), HttpGetExec_065());
    NoPercentCat(((HttpGetExec_060() + HttpGetExec_061()) + HttpGetExec_062()), ((HttpGetExec_063() + HttpGetExec_064()) + HttpGetExec_065()));
    NoPercentCat(HttpGetExec_066(), HttpGetExec_067());
    NoPercentCat((HttpGetExec_066() + HttpGetExec_067()), HttpGetExec_068());
    NoPercentCat(HttpGetExec_069(), HttpGetExec_070());
    NoPercentCat((HttpGetExec_069() + HttpGetExec_070()), HttpGetExec_071());
    NoPercentCat(((HttpGetExec_066() + HttpGetExec_067()) + HttpGetExec_068()), ((HttpGetExec_069() + HttpGetExec_070()) + HttpGetExec_071()));
    NoPercentCat((((HttpGetExec_060() + HttpGetExec_061()) + HttpGetExec_062()) + ((HttpGetExec_063() + HttpGetExec_064()) + HttpGetExec_065())), (((HttpGetExec_066() + HttpGetExec_067()) + HttpGetExec_068()) + ((HttpGetExec_069() + HttpGetExec_070()) + HttpGetExec_071())));
  }

  lemma HttpGetExecPiece4()
    ensures NoPercentChars(((((HttpGetExec_072() + HttpGetExec_073()) + HttpGetExec_074()) + ((HttpGetExec_075() + HttpGetExec_076()) + HttpGetExec_077())) + (((HttpGetExec_078() + HttpGetExec_079()) + HttpGetExec_080()) + ((HttpGetExec_081() + HttpGetExec_082()) + HttpGetExec_083()))))
  {
    assert NoPercentChars(HttpGetExec_072());
    assert NoPercentChars(HttpGetExec_073());
    assert NoPercentChars(HttpGetExec_074());
    assert NoPercentChars(HttpGetExec_075());
    assert NoPercentChars(HttpGetExec_076());
    assert NoPercentChars(HttpGetExec_077());
    assert NoPercentChars(HttpGetExec_078());
    assert NoPercentChars(HttpGetExec_079());
    assert NoPercentChars(HttpGetExec_080());
    assert NoPercentChars(HttpGetExec_081());
    assert NoPercentChars(HttpGetExec_082());
    assert NoPercentChars(HttpGetExec_083());
    NoPercentCat(HttpGetExec_072(), HttpGetExec_073());
    NoPercentCat((HttpGetExec_072() + HttpGetExec_073()), HttpGetExec_074());
    NoPercentCat(HttpGetExec_075(), HttpGetExec_076());
    NoPercentCat((HttpGetExec_075() + HttpGetExec_076()), HttpGetExec_077());
    NoPercentCat(((HttpGetExec_072() + HttpGetExec_073()) + HttpGetExec_074()), ((HttpGetExec_075() + HttpGetExec_076()) + HttpGetExec_077()));
    NoPercentCat(HttpGetExec_078(), HttpGetExec_079());
    NoPercentCat((HttpGetExec_078() + HttpGetExec_079()), HttpGetExec_080());
    NoPercentCat(HttpGetExec_081(), HttpGetExec_082());
    NoPercentCat((HttpGetExec_081() + HttpGetExec_082()), HttpGetExec_083());
    NoPercentCat(((HttpGetExec_078() + HttpGetExec_079()) + HttpGetExec_080()), ((HttpGetExec_081() + HttpGetExec_082()) + HttpGetExec_083()));
    NoPercentCat((((HttpGetExec_072() + HttpGetExec_073()) + HttpGetExec_074()) + ((HttpGetExec_075() + HttpGetExec_076()) + HttpGetExec_077())), (((HttpGetExec_078() + HttpGetExec_079()) + HttpGetExec_080()) + ((HttpGetExec_081() + HttpGetExec_082()) + HttpGetExec_083())));
  }

  lemma HttpGetExecPiece5()
    ensures NoPercentChars(((((HttpGetExec_084() + HttpGetExec_085()) + HttpGetExec_086()) + ((HttpGetExec_087() + HttpGetExec_088()) + HttpGetExec_089())) + (((HttpGetExec_090() + HttpGetExec_091()) + HttpGetExec_092()) + ((HttpGetExec_093() + HttpGetExec_094()) + HttpGetExec_095()))))
  {
    assert NoPercentChars(HttpGetExec_084());
    assert NoPercentChars(HttpGetExec_085());
    assert NoPercentChars(HttpGetExec_086());
    assert NoPercentChars(HttpGetExec_087());
    assert NoPercentChars(HttpGetExec_088());
    assert NoPercentChars(HttpGetExec_089());
    assert NoPercentChars(HttpGetExec_090());
    assert NoPercentChars(HttpGetExec_091());
    assert NoPercentChars(HttpGetExec_092());
    assert NoPercentChars(HttpGetExec_093());
    assert NoPercentChars(HttpGetExec_094());
    assert NoPercentChars(HttpGetExec_095());
    NoPercentCat(HttpGetExec_084(), HttpGetExec_085());
    NoPercentCat((HttpGetExec_084() + HttpGetExec_085()), HttpGetExec_086());
    NoPercentCat(HttpGetExec_087(), HttpGetExec_088());
    NoPercentCat((HttpGetExec_087() + HttpGetExec_088()), HttpGetExec_089());
    NoPercentCat(((HttpGetExec_084() + HttpGetExec_085()) + HttpGetExec_086()), ((HttpGetExec_087() + HttpGetExec_088()) + HttpGetExec_089()));
    NoPercentCat(HttpGetExec_090(), HttpGetExec_091());
    NoPercentCat((HttpGetExec_090() + HttpGetExec_091()), HttpGetExec_092());
    NoPercentCat(HttpGetExec_093(), HttpGetExec_094());
    NoPercentCat((HttpGetExec_093() + HttpGetExec_094()), HttpGetExec_095());
    NoPercentCat(((HttpGetExec_090() + HttpGetExec_091()) + HttpGetExec_092()), ((HttpGetExec_093() + HttpGetExec_094()) + HttpGetExec_095()));
    NoPercentCat((((HttpGetExec_084() + HttpGetExec_085()) + HttpGetExec_086()) + ((HttpGetExec_087() + HttpGetExec_088()) + HttpGetExec_089())), (((HttpGetExec_090() + HttpGetExec_091()) + HttpGetExec_092()) + ((HttpGetExec_093() + HttpGetExec_094()) + HttpGetExec_095())));
  }

  lemma HttpGetExecPart1()
    ensures NoPercentChars(((((((HttpGetExec_048() + HttpGetExec_049()) + HttpGetExec_050()) + ((HttpGetExec_051() + HttpGetExec_052()) + HttpGetExec_053())) + (((HttpGetExec_054() + HttpGetExec_055()) + HttpGetExec_056()) + ((HttpGetExec_057() + HttpGetExec_058()) + HttpGetExec_059()))) + ((((HttpGetExec_060() + HttpGetExec_061()) + HttpGetExec_062()) + ((HttpGetExec_063() + HttpGetExec_064()) + HttpGetExec_065())) + (((HttpGetExec_066() + HttpGetExec_067()) + HttpGetExec_068()) + ((HttpGetExec_069() + HttpGetExec_070()) + HttpGetExec_071())))) + (((((HttpGetExec_072() + HttpGetExec_073()) + HttpGetExec_074()) + ((HttpGetExec_075() + HttpGetExec_076()) + HttpGetExec_077())) + (((HttpGetExec_078() + HttpGetExec_079()) + HttpGetExec_080()) + ((HttpGetExec_081() + HttpGetExec_082()) + HttpGetExec_083()))) + ((((HttpGetExec_084() + HttpGetExec_085()) + HttpGetExec_086()) + ((HttpGetExec_087() + HttpGetExec_088()) + HttpGetExec_089())) + (((HttpGetExec_090() + HttpGetExec_091()) + HttpGetExec_092()) + ((HttpGetExec_093() + HttpGetExec_094()) + HttpGetExec_095()))))))
  {
    assert NoPercentChars(HttpGetExec_048());
    assert NoPercentChars(HttpGetExec_049());
    assert NoPercentChars(HttpGetExec_050());
    assert NoPercentChars(HttpGetExec_051());
    assert NoPercentChars(HttpGetExec_052());
    assert NoPercentChars(HttpGetExec_053());
    assert NoPercentChars(HttpGetExec_054());
    assert NoPercentChars(HttpGetExec_055());
    assert NoPercentChars(HttpGetExec_056());
    assert NoPercentChars(HttpGetExec_057());
    assert NoPercentChars(HttpGetExec_058());
    assert NoPercentChars(HttpGetExec_059());
    NoPercentCat(HttpGetExec_048(), HttpGetExec_049());
    NoPercentCat((HttpGetExec_048() + HttpGetExec_049()), HttpGetExec_050());
    NoPercentCat(HttpGetExec_051(), HttpGetExec_052());
    NoPercentCat((HttpGetExec_051() + HttpGetExec_052()), HttpGetExec_053());
    NoPercentCat(((HttpGetExec_048() + HttpGetExec_049()) + HttpGetExec_050()), ((HttpGetExec_051() + HttpGetExec_052()) + HttpGetExec_053()));
    NoPercentCat(HttpGetExec_054(), HttpGetExec_055());
    NoPercentCat((HttpGetExec_054() + HttpGetExec_055()), HttpGetExec_056());
    NoPercentCat(HttpGetExec_057(), HttpGetExec_058());
    NoPercentCat((HttpGetExec_057() + HttpGetExec_058()), HttpGetExec_059());
    NoPercentCat(((HttpGetExec_054() + HttpGetExec_055()) + HttpGetExec_056()), ((HttpGetExec_057() + HttpGetExec_058()) + HttpGetExec_059()));
    NoPercentCat((((HttpGetExec_048() + HttpGetExec_049()) + HttpGetExec_050()) + ((HttpGetExec_051() + HttpGetExec_052()) + HttpGetExec_053())), (((HttpGetExec_054() + HttpGetExec_055()) + HttpGetExec_056()) + ((HttpGetExec_057() + HttpGetExec_058()) + HttpGetExec_059())));
    HttpGetExecPiece3();
    NoPercentCat(((((HttpGetExec_048() + HttpGetExec_049()) + HttpGetExec_050()) + ((HttpGetExec_051() + HttpGetExec_052()) + HttpGetExec_053())) + (((HttpGetExec_054() + HttpGetExec_055()) + HttpGetExec_056()) + ((HttpGetExec_057() + HttpGetExec_058()) + HttpGetExec_059()))), ((((HttpGetExec_060() + HttpGetExec_061()) + HttpGetExec_062()) + ((HttpGetExec_063() + HttpGetExec_064()) + HttpGetExec_065())) + (((HttpGetExec_066() + HttpGetExec_067()) + HttpGetExec_068()) + ((HttpGetExec_069() + HttpGetExec_070()) + HttpGetExec_071()))));
    HttpGetExecPiece4();
    HttpGetExecPiece5();
    NoPercentCat(((((HttpGetExec_072() + HttpGetExec_073()) + HttpGetExec_074()) + ((HttpGetExec_075() + HttpGetExec_076()) + HttpGetExec_077())) + (((HttpGetExec_078() + HttpGetExec_079()) + HttpGetExec_080()) + ((HttpGetExec_081() + HttpGetExec_082()) + HttpGetExec_083()))), ((((HttpGetExec_084() + HttpGetExec_085()) + HttpGetExec_086()) + ((HttpGetExec_087() + HttpGetExec_088()) + HttpGetExec_089())) + (((HttpGetExec_090() + HttpGetExec_091()) + HttpGetExec_092()) + ((HttpGetExec_093() + HttpGetExec_094()) + HttpGetExec_095()))));
    NoPercentCat((((((HttpGetExec_048() + HttpGetExec_049()) + HttpGetExec_050()) + ((HttpGetExec_051() + HttpGetExec_052()) + HttpGetExec_053())) + (((HttpGetExec_054() + HttpGetExec_055()) + HttpGetExec_056()) + ((HttpGetExec_057() + HttpGetExec_058()) + HttpGetExec_059()))) + ((((HttpGetExec_060() + HttpGetExec_061()) + HttpGetExec_062()) + ((HttpGetExec_063() + HttpGetExec_064()) + HttpGetExec_065())) + (((HttpGetExec_066() + HttpGetExec_067()) + HttpGetExec_068()) + ((HttpGetExec_069() + HttpGetExec_070()) + HttpGetExec_071())))), (((((HttpGetExec_072() + HttpGetExec_073()) + HttpGetExec_074()) + ((HttpGetExec_075() + HttpGetExec_076()) + HttpGetExec_077())) + (((HttpGetExec_078() + HttpGetExec_079()) + HttpGetExec_080()) + ((HttpGetExec_081() + HttpGetExec_082()) + HttpGetExec_083()))) + ((((HttpGetExec_084() + HttpGetExec_085()) + HttpGetExec_086()) + ((HttpGetExec_087() + HttpGetExec_088()) + HttpGetExec_089())) + (((HttpGetExec_090() + HttpGetExec_091()) + HttpGetExec_092()) + ((HttpGetExec_093() + HttpGetExec_094()) + HttpGetExec_095())))));
  }

  lemma HttpGetExecPart2()
    ensures NoPercentChars((((((((HttpGetExec_000() + HttpGetExec_001()) + HttpGetExec_002()) + ((HttpGetExec_003() + HttpGetExec_004()) + HttpGetExec_005())) + (((HttpGetExec_006() + HttpGetExec_007()) + HttpGetExec_008()) + ((HttpGetExec_009() + HttpGetExec_010()) + HttpGetExec_011()))) + ((((HttpGetExec_012() + HttpGetExec_013()) + HttpGetExec_014()) + ((HttpGetExec_015() + HttpGetExec_016()) + HttpGetExec_017())) + (((HttpGetExec_018() + HttpGetExec_019()) + HttpGetExec_020()) + ((HttpGetExec_021() + HttpGetExec_022()) + HttpGetExec_023())))) + (((((HttpGetExec_024() + HttpGetExec_025()) + HttpGetExec_026()) + ((HttpGetExec_027() + HttpGetExec_028()) + HttpGetExec_029())) + (((HttpGetExec_030() + HttpGetExec_031()) + HttpGetExec_032()) + ((HttpGetExec_033() + HttpGetExec_034()) + HttpGetExec_035()))) + ((((HttpGetExec_036() + HttpGetExec_037()) + HttpGetExec_038()) + ((HttpGetExec_039() + HttpGetExec_040()) + HttpGetExec_041())) + (((HttpGetExec_042() + HttpGetExec_043()) + HttpGetExec_044()) + ((HttpGetExec_045() + HttpGetExec_046()) + HttpGetExec_047()))))) + ((((((HttpGetExec_048() + HttpGetExec_049()) + HttpGetExec_050()) + ((HttpGetExec_051() + HttpGetExec_052()) + HttpGetExec_053())) + (((HttpGetExec_054() + HttpGetExec_055()) + HttpGetExec_056()) + ((HttpGetExec_057() + HttpGetExec_058()) + HttpGetExec_059()))) + ((((HttpGetExec_060() + HttpGetExec_061()) + HttpGetExec_062()) + ((HttpGetExec_063() + HttpGetExec_064()) + HttpGetExec_065())) + (((HttpGetExec_066() + HttpGetExec_067()) + HttpGetExec_068()) + ((HttpGetExec_069() + HttpGetExec_070()) + HttpGetExec_071())))) + (((((HttpGetExec_072() + HttpGetExec_073()) + HttpGetExec_074()) + ((HttpGetExec_075() + HttpGetExec_076()) + HttpGetExec_077())) + (((HttpGetExec_078() + HttpGetExec_079()) + HttpGetExec_080()) + ((HttpGetExec_081() + HttpGetExec_082()) + HttpGetExec_083()))) + ((((HttpGetExec_084() + HttpGetExec_085()) + HttpGetExec_086()) + ((HttpGetExec_087() + HttpGetExec_088()) + HttpGetExec_089())) + (((HttpGetExec_090() + HttpGetExec_091()) + HttpGetExec_092()) + ((HttpGetExec_093() + HttpGetExec_094()) + HttpGetExec_095())))))))
  {
    HttpGetExecPart0();
    HttpGetExecPart1();
    NoPercentCat(((((((HttpGetExec_000() + HttpGetExec_001()) + HttpGetExec_002()) + ((HttpGetExec_003() + HttpGetExec_004()) + HttpGetExec_005())) + (((HttpGetExec_006() + HttpGetExec_007()) + HttpGetExec_008()) + ((HttpGetExec_009() + HttpGetExec_010()) + HttpGetExec_011()))) + ((((HttpGetExec_012() + HttpGetExec_013()) + HttpGetExec_014()) + ((HttpGetExec_015() + HttpGetExec_016()) + HttpGetExec_017())) + (((HttpGetExec_018() + HttpGetExec_019()) + HttpGetExec_020()) + ((HttpGetExec_021() + HttpGetExec_022()) + HttpGetExec_023())))) + (((((HttpGetExec_024() + HttpGetExec_025()) + HttpGetExec_026()) + ((HttpGetExec_027() + HttpGetExec_028()) + HttpGetExec_029())) + (((HttpGetExec_030() + HttpGetExec_031()) + HttpGetExec_032()) + ((HttpGetExec_033() + HttpGetExec_034()) + HttpGetExec_035()))) + ((((HttpGetExec_036() + HttpGetExec_037()) + HttpGetExec_038()) + ((HttpGetExec_039() + HttpGetExec_040()) + HttpGetExec_041())) + (((HttpGetExec_042() + HttpGetExec_043()) + HttpGetExec_044()) + ((HttpGetExec_045() + HttpGetExec_046()) + HttpGetExec_047()))))), ((((((HttpGetExec_048() + HttpGetExec_049()) + HttpGetExec_050()) + ((HttpGetExec_051() + HttpGetExec_052()) + HttpGetExec_053())) + (((HttpGetExec_054() + HttpGetExec_055()) + HttpGetExec_056()) + ((HttpGetExec_057() + HttpGetExec_058()) + HttpGetExec_059()))) + ((((HttpGetExec_060() + HttpGetExec_061()) + HttpGetExec_062()) + ((HttpGetExec_063() + HttpGetExec_064()) + HttpGetExec_065())) + (((HttpGetExec_066() + HttpGetExec_067()) + HttpGetExec_068()) + ((HttpGetExec_069() + HttpGetExec_070()) + HttpGetExec_071())))) + (((((HttpGetExec_072() + HttpGetExec_073()) + HttpGetExec_074()) + ((HttpGetExec_075() + HttpGetExec_076()) + HttpGetExec_077())) + (((HttpGetExec_078() + HttpGetExec_079()) + HttpGetExec_080()) + ((HttpGetExec_081() + HttpGetExec_082()) + HttpGetExec_083()))) + ((((HttpGetExec_084() + HttpGetExec_085()) + HttpGetExec_086()) + ((HttpGetExec_087() + HttpGetExec_088()) + HttpGetExec_089())) + (((HttpGetExec_090() + HttpGetExec_091()) + HttpGetExec_092()) + ((HttpGetExec_093() + HttpGetExec_094()) + HttpGetExec_095()))))));
  }

  lemma HttpGetExecPiece6()
    ensures NoPercentChars(((((HttpGetExec_108() + HttpGetExec_109()) + HttpGetExec_110()) + ((HttpGetExec_111() + HttpGetExec_112()) + HttpGetExec_113())) + (((HttpGetExec_114() + HttpGetExec_115()) + HttpGetExec_116()) + ((HttpGetExec_117() + HttpGetExec_118()) + HttpGetExec_119()))))
  {
    assert NoPercentChars(HttpGetExec_108());
    assert NoPercentChars(HttpGetExec_109());
    assert NoPercentChars(HttpGetExec_110());
    assert NoPercentChars(HttpGetExec_111());
    assert NoPercentChars(HttpGetExec_112());
    assert NoPercentChars(HttpGetExec_113());
    assert NoPercentChars(HttpGetExec_114());
    assert NoPercentChars(HttpGetExec_115());
    assert NoPercentChars(HttpGetExec_116());
    assert NoPercentChars(HttpGetExec_117());
    assert NoPercentChars(HttpGetExec_118());
    assert NoPercentChars(HttpGetExec_119());
    NoPercentCat(HttpGetExec_108(), HttpGetExec_109());
    NoPercentCat((HttpGetExec_108() + HttpGetExec_109()), HttpGetExec_110());
    NoPercentCat(HttpGetExec_111(), HttpGetExec_112());
    NoPercentCat((HttpGetExec_111() + HttpGetExec_112()), HttpGetExec_113());
    NoPercentCat(((HttpGetExec_108() + HttpGetExec_109()) + HttpGetExec_110()), ((HttpGetExec_111() + HttpGetExec_112()) + HttpGetExec_113()));
    NoPercentCat(HttpGetExec_114(), HttpGetExec_115());
    NoPercentCat((HttpGetExec_114() + HttpGetExec_115()), HttpGetExec_116());
    NoPercentCat(HttpGetExec_117(), HttpGetExec_118());
    NoPercentCat((HttpGetExec_117() + HttpGetExec_118()), HttpGetExec_119());
    NoPercentCat(((HttpGetExec_114() + HttpGetExec_115()) + HttpGetExec_116()), ((HttpGetExec_117() + HttpGetExec_118()) + HttpGetExec_119()));
    NoPercentCat((((HttpGetExec_108() + HttpGetExec_109()) + HttpGetExec_110()) + ((HttpGetExec_111() + HttpGetExec_112()) + HttpGetExec_113())), (((HttpGetExec_114() + HttpGetExec_115()) + HttpGetExec_116()) + ((HttpGetExec_117() + HttpGetExec_118()) + HttpGetExec_119())));
  }

  lemma HttpGetExecPiece7()
    ensures NoPercentChars(((((HttpGetExec_120() + HttpGetExec_121()) + HttpGetExec_122()) + ((HttpGetExec_123() + HttpGetExec_124()) + HttpGetExec_125())) + (((HttpGetExec_126() + HttpGetExec_127()) + HttpGetExec_128()) + ((HttpGetExec_129() + HttpGetExec_130()) + HttpGetExec_131()))))
  {
    assert NoPercentChars(HttpGetExec_120());
    assert NoPercentChars(HttpGetExec_121());
    assert NoPercentChars(HttpGetExec_122());
    assert NoPercentChars(HttpGetExec_123());
    assert NoPercentChars(HttpGetExec_124());
    assert NoPercentChars(HttpGetExec_125());
    assert NoPercentChars(HttpGetExec_126());
    assert NoPercentChars(HttpGetExec_127());
    assert NoPercentChars(HttpGetExec_128());
    assert NoPercentChars(HttpGetExec_129());
    assert NoPercentChars(HttpGetExec_130());
    assert NoPercentChars(HttpGetExec_131());
    NoPercentCat(HttpGetExec_120(), HttpGetExec_121());
    NoPercentCat((HttpGetExec_120() + HttpGetExec_121()), HttpGetExec_122());
    NoPercentCat(HttpGetExec_123(), HttpGetExec_124());
    NoPercentCat((HttpGetExec_123() + HttpGetExec_124()), HttpGetExec_125());
    NoPercentCat(((HttpGetExec_120() + HttpGetExec_121()) + HttpGetExec_122()), ((HttpGetExec_123() + HttpGetExec_124()) + HttpGetExec_125()));
    NoPercentCat(HttpGetExec_126(), HttpGetExec_127());
    NoPercentCat((HttpGetExec_126() + HttpGetExec_127()), HttpGetExec_128());
    NoPercentCat(HttpGetExec_129(), HttpGetExec_130());
    NoPercentCat((HttpGetExec_129() + HttpGetExec_130()), HttpGetExec_131());
    NoPercentCat(((HttpGetExec_126() + HttpGetExec_127()) + HttpGetExec_128()), ((HttpGetExec_129() + HttpGetExec_130()) + HttpGetExec_131()));
    NoPercentCat((((HttpGetExec_120() + HttpGetExec_121()) + HttpGetExec_122()) + ((HttpGetExec_123() + HttpGetExec_124()) + HttpGetExec_125())), (((HttpGetExec_126() + HttpGetExec_127()) + HttpGetExec_128()) + ((HttpGetExec_129() + HttpGetExec_130()) + HttpGetExec_131())));
  }

  lemma HttpGetExecPiece8()
    ensures NoPercentChars(((((HttpGetExec_132() + HttpGetExec_133()) + HttpGetExec_134()) + ((HttpGetExec_135() + HttpGetExec_136()) + HttpGetExec_137())) + (((HttpGetExec_138() + HttpGetExec_139()) + HttpGetExec_140()) + ((HttpGetExec_141() + HttpGetExec_142()) + HttpGetExec_143()))))
  {
    assert NoPercentChars(HttpGetExec_132());
    assert NoPercentChars(HttpGetExec_133());
    assert NoPercentChars(HttpGetExec_134());
    assert NoPercentChars(HttpGetExec_135());
    assert NoPercentChars(HttpGetExec_136());
    assert NoPercentChars(HttpGetExec_137());
    assert NoPercentChars(HttpGetExec_138());
    assert NoPercentChars(HttpGetExec_139());
    assert NoPercentChars(HttpGetExec_140());
    assert NoPercentChars(HttpGetExec_141());
    assert NoPercentChars(HttpGetExec_142());
    assert NoPercentChars(HttpGetExec_143());
    NoPercentCat(HttpGetExec_132(), HttpGetExec_133());
    NoPercentCat((HttpGetExec_132() + HttpGetExec_133()), HttpGetExec_134());
    NoPercentCat(HttpGetExec_135(), HttpGetExec_136());
    NoPercentCat((HttpGetExec_135() + HttpGetExec_136()), HttpGetExec_137());
    NoPercentCat(((HttpGetExec_132() + HttpGetExec_133()) + HttpGetExec_134()), ((HttpGetExec_135() + HttpGetExec_136()) + HttpGetExec_137()));
    NoPercentCat(HttpGetExec_138(), HttpGetExec_139());
    NoPercentCat((HttpGetExec_138() + HttpGetExec_139()), HttpGetExec_140());
    NoPercentCat(HttpGetExec_141(), HttpGetExec_142());
    NoPercentCat((HttpGetExec_141() + HttpGetExec_142()), HttpGetExec_143());
    NoPercentCat(((HttpGetExec_138() + HttpGetExec_139()) + HttpGetExec_140()), ((HttpGetExec_141() + HttpGetExec_142()) + HttpGetExec_143()));
    NoPercentCat((((HttpGetExec_132() + HttpGetExec_133()) + HttpGetExec_134()) + ((HttpGetExec_135() + HttpGetExec_136()) + HttpGetExec_137())), (((HttpGetExec_138() + HttpGetExec_139()) + HttpGetExec_140()) + ((HttpGetExec_141() + HttpGetExec_142()) + HttpGetExec_143())));
  }

  lemma HttpGetExecPart3()
    ensures NoPercentChars(((((((HttpGetExec_096() + HttpGetExec_097()) + HttpGetExec_098()) + ((HttpGetExec_099() + HttpGetExec_100()) + HttpGetExec_101())) + (((HttpGetExec_102() + HttpGetExec_103()) + HttpGetExec_104()) + ((HttpGetExec_105() + HttpGetExec_106()) + HttpGetExec_107()))) + ((((HttpGetExec_108() + HttpGetExec_109()) + HttpGetExec_110()) + ((HttpGetExec_111() + HttpGetExec_112()) + HttpGetExec_113())) + (((HttpGetExec_114() + HttpGetExec_115()) + HttpGetExec_116()) + ((HttpGetExec_117() + HttpGetExec_118()) + HttpGetExec_119())))) + (((((HttpGetExec_120() + HttpGetExec_121()) + HttpGetExec_122()) + ((HttpGetExec_123() + HttpGetExec_124()) + HttpGetExec_125())) + (((HttpGetExec_126() + HttpGetExec_127()) + HttpGetExec_128()) + ((HttpGetExec_129() + HttpGetExec_130()) + HttpGetExec_131()))) + ((((HttpGetExec_132() + HttpGetExec_133()) + HttpGetExec_134()) + ((HttpGetExec_135() + HttpGetExec_136()) + HttpGetExec_137())) + (((HttpGetExec_138() + HttpGetExec_139()) + HttpGetExec_140()) + ((HttpGetExec_141() + HttpGetExec_142()) + HttpGetExec_143()))))))
  {
    assert NoPercentChars(HttpGetExec_096());
    assert NoPercentChars(HttpGetExec_097());
    assert NoPercentChars(HttpGetExec_098());
    assert NoPercentChars(HttpGetExec_099());
    assert NoPercentChars(HttpGetExec_100());
    assert NoPercentChars(HttpGetExec_101());
    assert NoPercentChars(HttpGetExec_102());
    assert NoPercentChars(HttpGetExec_103());
    assert NoPercentChars(HttpGetExec_104());
    assert NoPercentChars(HttpGetExec_105());
    assert NoPercentChars(HttpGetExec_106());
    assert NoPercentChars(HttpGetExec_107());
    NoPercentCat(HttpGetExec_096(), HttpGetExec_097());
    NoPercentCat((HttpGetExec_096() + HttpGetExec_097()), HttpGetExec_098());
    NoPercentCat(HttpGetExec_099(), HttpGetExec_100());
    NoPercentCat((HttpGetExec_099() + HttpGetExec_100()), HttpGetExec_101());
    NoPercentCat(((HttpGetExec_096() + HttpGetExec_097()) + HttpGetExec_098()), ((HttpGetExec_099() + HttpGetExec_100()) + HttpGetExec_101()));
    NoPercentCat(HttpGetExec_102(), HttpGetExec_103());
    NoPercentCat((HttpGetExec_102() + HttpGetExec_103()), HttpGetExec_104());
    NoPercentCat(HttpGetExec_105(), HttpGetExec_106());
    NoPercentCat((HttpGetExec_105() + HttpGetExec_106()), HttpGetExec_107());
    NoPercentCat(((HttpGetExec_102() + HttpGetExec_103()) + HttpGetExec_104()), ((HttpGetExec_105() + HttpGetExec_106()) + HttpGetExec_107()));
    NoPercentCat((((HttpGetExec_096() + HttpGetExec_097()) + HttpGetExec_098()) + ((HttpGetExec_099() + HttpGetExec_100()) + HttpGetExec_101())), (((HttpGetExec_102() + HttpGetExec_103()) + HttpGetExec_104()) + ((HttpGetExec_105() + HttpGetExec_106()) + HttpGetExec_107())));
    HttpGetExecPiece6();
    NoPercentCat(((((HttpGetExec_096() + HttpGetExec_097()) + HttpGetExec_098()) + ((HttpGetExec_099() + HttpGetExec_100()) + HttpGetExec_101())) + (((HttpGetExec_102() + HttpGetExec_103()) + HttpGetExec_104()) + ((HttpGetExec_105() + HttpGetExec_106()) + HttpGetExec_107()))), ((((HttpGetExec_108() + HttpGetExec_109()) + HttpGetExec_110()) + ((HttpGetExec_111() + HttpGetExec_112()) + HttpGetExec_113())) + (((HttpGetExec_114() + HttpGetExec_115()) + HttpGetExec_116()) + ((HttpGetExec_117() + HttpGetExec_118()) + HttpGetExec_119()))));
    HttpGetExecPiece7();
    HttpGetExecPiece8();
    NoPercentCat(((((HttpGetExec_120() + HttpGetExec_121()) + HttpGetExec_122()) + ((HttpGetExec_123() + HttpGetExec_124()) + HttpGetExec_125())) + (((HttpGetExec_126() + HttpGetExec_127()) + HttpGetExec_128()) + ((HttpGetExec_129() + HttpGetExec_130()) + HttpGetExec_131()))), ((((HttpGetExec_132() + HttpGetExec_133()) + HttpGetExec_134()) + ((HttpGetExec_135() + HttpGetExec_136()) + HttpGetExec_137())) + (((HttpGetExec_138() + HttpGetExec_139()) + HttpGetExec_140()) + ((HttpGetExec_141() + HttpGetExec_142()) + HttpGetExec_143()))));
    NoPercentCat((((((HttpGetExec_096() + HttpGetExec_097()) + HttpGetExec_098()) + ((HttpGetExec_099() + HttpGetExec_100()) + HttpGetExec_101())) + (((HttpGetExec_102() + HttpGetExec_103()) + HttpGetExec_104()) + ((HttpGetExec_105() + HttpGetExec_106()) + HttpGetExec_107()))) + ((((HttpGetExec_108() + HttpGetExec_109()) + HttpGetExec_110()) + ((HttpGetExec_111() + HttpGetExec_112()) + HttpGetExec_113())) + (((HttpGetExec_114() + HttpGetExec_115()) + HttpGetExec_116()) + ((HttpGetExec_117() + HttpGetExec_118()) + HttpGetExec_119())))), (((((HttpGetExec_120() + HttpGetExec_121()) + HttpGetExec_122()) + ((HttpGetExec_123() + HttpGetExec_124()) + HttpGetExec_125())) + (((HttpGetExec_126() + HttpGetExec_127()) + HttpGetExec_128()) + ((HttpGetExec_129() + HttpGetExec_130()) + HttpGetExec_131()))) + ((((HttpGetExec_132() + HttpGetExec_133()) + HttpGetExec_134()) + ((HttpGetExec_135() + HttpGetExec_136()) + HttpGetExec_137())) + (((HttpGetExec_138() + HttpGetExec_139()) + HttpGetExec_140()) + ((HttpGetExec_141() + HttpGetExec_142()) + HttpGetExec_143())))));
  }

  lemma HttpGetExecPiece9()
    ensures NoPercentChars(((((HttpGetExec_156() + HttpGetExec_157()) + HttpGetExec_158()) + ((HttpGetExec_159() + HttpGetExec_160()) + HttpGetExec_161())) + (((HttpGetExec_162() + HttpGetExec_163()) + HttpGetExec_164()) + ((HttpGetExec_165() + HttpGetExec_166()) + HttpGetExec_167()))))
  {
    assert NoPercentChars(HttpGetExec_156());
    assert NoPercentChars(HttpGetExec_157());
    assert NoPercentChars(HttpGetExec_158());
    assert NoPercentChars(HttpGetExec_159());
    assert NoPercentChars(HttpGetExec_160());
    assert NoPercentChars(HttpGetExec_161());
    assert NoPercentChars(HttpGetExec_162());
    assert NoPercentChars(HttpGetExec_163());
    assert NoPercentChars(HttpGetExec_164());
    assert NoPercentChars(HttpGetExec_165());
    assert NoPercentChars(HttpGetExec_166());
    assert NoPercentChars(HttpGetExec_167());
    NoPercentCat(HttpGetExec_156(), HttpGetExec_157());
    NoPercentCat((HttpGetExec_156() + HttpGetExec_157()), HttpGetExec_158());
    NoPercentCat(HttpGetExec_159(), HttpGetExec_160());
    NoPercentCat((HttpGetExec_159() + HttpGetExec_160()), HttpGetExec_161());
    NoPercentCat(((HttpGetExec_156() + HttpGetExec_157()) + HttpGetExec_158()), ((HttpGetExec_159() + HttpGetExec_160()) + HttpGetExec_161()));
    NoPercentCat(HttpGetExec_162(), HttpGetExec_163());
    NoPercentCat((HttpGetExec_162() + HttpGetExec_163()), HttpGetExec_164());
    NoPercentCat(HttpGetExec_165(), HttpGetExec_166());
    NoPercentCat((HttpGetExec_165() + HttpGetExec_166()), HttpGetExec_167());
    NoPercentCat(((HttpGetExec_162() + HttpGetExec_163()) + HttpGetExec_164()), ((HttpGetExec_165() + HttpGetExec_166()) + HttpGetExec_167()));
    NoPercentCat((((HttpGetExec_156() + HttpGetExec_157()) + HttpGetExec_158()) + ((HttpGetExec_159() + HttpGetExec_160()) + HttpGetExec_161())), (((HttpGetExec_162() + HttpGetExec_163()) + HttpGetExec_164()) + ((HttpGetExec_165() + HttpGetExec_166()) + HttpGetExec_167())));
  }

  lemma HttpGetExecPiece10()
    ensures NoPercentChars(((HttpGetExec_168() + HttpGetExec_169()) + (HttpGetExec_170() + HttpGetExec_171())))
  {
    assert NoPercentChars(HttpGetExec_168());
    assert NoPercentChars(HttpGetExec_169());
    assert NoPercentChars(HttpGetExec_170());
    assert NoPercentChars(HttpGetExec_171());
    NoPercentCat(HttpGetExec_168(), HttpGetExec_169());
    NoPercentCat(HttpGetExec_170(), HttpGetExec_171());
    NoPercentCat((HttpGetExec_168() + HttpGetExec_169()), (HttpGetExec_170() + HttpGetExec_171()));
  }

  lemma HttpGetExecPart4()
    ensures NoPercentChars(((((((HttpGetExec_144() + HttpGetExec_145()) + HttpGetExec_146()) + ((HttpGetExec_147() + HttpGetExec_148()) + HttpGetExec_149())) + (((HttpGetExec_150() + HttpGetExec_151()) + HttpGetExec_152()) + ((HttpGetExec_153() + HttpGetExec_154()) + HttpGetExec_155()))) + ((((HttpGetExec_156() + HttpGetExec_157()) + HttpGetExec_158()) + ((HttpGetExec_159() + HttpGetExec_160()) + HttpGetExec_161())) + (((HttpGetExec_162() + HttpGetExec_163()) + HttpGetExec_164()) + ((HttpGetExec_165() + HttpGetExec_166()) + HttpGetExec_167())))) + ((HttpGetExec_168() + HttpGetExec_169()) + (HttpGetExec_170() + HttpGetExec_171()))))
  {
    assert NoPercentChars(HttpGetExec_144());
    assert NoPercentChars(HttpGetExec_145());
    assert NoPercentChars(HttpGetExec_146());
    assert NoPercentChars(HttpGetExec_147());
    assert NoPercentChars(HttpGetExec_148());
    assert NoPercentChars(HttpGetExec_149());
    assert NoPercentChars(HttpGetExec_150());
    assert NoPercentChars(HttpGetExec_151());
    assert NoPercentChars(HttpGetExec_152());
    assert NoPercentChars(HttpGetExec_153());
    assert NoPercentChars(HttpGetExec_154());
    assert NoPercentChars(HttpGetExec_155());
    NoPercentCat(HttpGetExec_144(), HttpGetExec_145());
    NoPercentCat((HttpGetExec_144() + HttpGetExec_145()), HttpGetExec_146());
    NoPercentCat(HttpGetExec_147(), HttpGetExec_148());
    NoPercentCat((HttpGetExec_147() + HttpGetExec_148()), HttpGetExec_149());
    NoPercentCat(((HttpGetExec_144() + HttpGetExec_145()) + HttpGetExec_146()), ((HttpGetExec_147() + HttpGetExec_148()) + HttpGetExec_149()));
    NoPercentCat(HttpGetExec_150(), HttpGetExec_151());
    NoPercentCat((HttpGetExec_150() + HttpGetExec_151()), HttpGetExec_152());
    NoPercentCat(HttpGetExec_153(), HttpGetExec_154());
    NoPercentCat((HttpGetExec_153() + HttpGetExec_154()), HttpGetExec_155());
    NoPercentCat(((HttpGetExec_150() + HttpGetExec_151()) + HttpGetExec_152()), ((HttpGetExec_153() + HttpGetExec_154()) + HttpGetExec_155()));
    NoPercentCat((((HttpGetExec_144() + HttpGetExec_145()) + HttpGetExec_146()) + ((HttpGetExec_147() + HttpGetExec_148()) + HttpGetExec_149())), (((HttpGetExec_150() + HttpGetExec_151()) + HttpGetExec_152()) + ((HttpGetExec_153() + HttpGetExec_154()) + HttpGetExec_155())));
    HttpGetExecPiece9();
    NoPercentCat(((((HttpGetExec_144() + HttpGetExec_145()) + HttpGetExec_146()) + ((HttpGetExec_147() + HttpGetExec_148()) + HttpGetExec_149())) + (((HttpGetExec_150() + HttpGetExec_151()) + HttpGetExec_152()) + ((HttpGetExec_153() + HttpGetExec_154()) + HttpGetExec_155()))), ((((HttpGetExec_156() + HttpGetExec_157()) + HttpGetExec_158()) + ((HttpGetExec_159() + HttpGetExec_160()) + HttpGetExec_161())) + (((HttpGetExec_162() + HttpGetExec_163()) + HttpGetExec_164()) + ((HttpGetExec_165() + HttpGetExec_166()) + HttpGetExec_167()))));
    HttpGetExecPiece10();
    NoPercentCat((((((HttpGetExec_144() + HttpGetExec_145()) + HttpGetExec_146()) + ((HttpGetExec_147() + HttpGetExec_148()) + HttpGetExec_149())) + (((HttpGetExec_150() + HttpGetExec_151()) + HttpGetExec_152()) + ((HttpGetExec_153() + HttpGetExec_154()) + HttpGetExec_155()))) + ((((HttpGetExec_156() + HttpGetExec_157()) + HttpGetExec_158()) + ((HttpGetExec_159() + HttpGetExec_160()) + HttpGetExec_161())) + (((HttpGetExec_162() + HttpGetExec_163()) + HttpGetExec_164()) + ((HttpGetExec_165() + HttpGetExec_166()) + HttpGetExec_167())))), ((HttpGetExec_168() + HttpGetExec_169()) + (HttpGetExec_170() + HttpGetExec_171())));
  }

  lemma HttpGetExecPart5()
    ensures NoPercentChars((((((((HttpGetExec_096() + HttpGetExec_097()) + HttpGetExec_098()) + ((HttpGetExec_099() + HttpGetExec_100()) + HttpGetExec_101())) + (((HttpGetExec_102() + HttpGetExec_103()) + HttpGetExec_104()) + ((HttpGetExec_105() + HttpGetExec_106()) + HttpGetExec_107()))) + ((((HttpGetExec_108() + HttpGetExec_109()) + HttpGetExec_110()) + ((HttpGetExec_111() + HttpGetExec_112()) + HttpGetExec_113())) + (((HttpGetExec_114() + HttpGetExec_115()) + HttpGetExec_116()) + ((HttpGetExec_117() + HttpGetExec_118()) + HttpGetExec_119())))) + (((((HttpGetExec_120() + HttpGetExec_121()) + HttpGetExec_122()) + ((HttpGetExec_123() + HttpGetExec_124()) + HttpGetExec_125())) + (((HttpGetExec_126() + HttpGetExec_127()) + HttpGetExec_128()) + ((HttpGetExec_129() + HttpGetExec_130()) + HttpGetExec_131()))) + ((((HttpGetExec_132() + HttpGetExec_133()) + HttpGetExec_134()) + ((HttpGetExec_135() + HttpGetExec_136()) + HttpGetExec_137())) + (((HttpGetExec_138() + HttpGetExec_139()) + HttpGetExec_140()) + ((HttpGetExec_141() + HttpGetExec_142()) + HttpGetExec_143()))))) + ((((((HttpGetExec_144() + HttpGetExec_145()) + HttpGetExec_146()) + ((HttpGetExec_147() + HttpGetExec_148()) + HttpGetExec_149())) + (((HttpGetExec_150() + HttpGetExec_151()) + HttpGetExec_152()) + ((HttpGetExec_153() + HttpGetExec_154()) + HttpGetExec_155()))) + ((((HttpGetExec_156() + HttpGetExec_157()) + HttpGetExec_158()) + ((HttpGetExec_159() + HttpGetExec_160()) + HttpGetExec_161())) + (((HttpGetExec_162() + HttpGetExec_163()) + HttpGetExec_164()) + ((HttpGetExec_165() + HttpGetExec_166()) + HttpGetExec_167())))) + ((HttpGetExec_168() + HttpGetExec_169()) + (HttpGetExec_170() + HttpGetExec_171())))))
  {
    HttpGetExecPart3();
    HttpGetExecPart4();
    NoPercentCat(((((((HttpGetExec_096() + HttpGetExec_097()) + HttpGetExec_098()) + ((HttpGetExec_099() + HttpGetExec_100()) + HttpGetExec_101())) + (((HttpGetExec_102() + HttpGetExec_103()) + HttpGetExec_104()) + ((HttpGetExec_105() + HttpGetExec_106()) + HttpGetExec_107()))) + ((((HttpGetExec_108() + HttpGetExec_109()) + HttpGetExec_110()) + ((HttpGetExec_111() + HttpGetExec_112()) + HttpGetExec_113())) + (((HttpGetExec_114() + HttpGetExec_115()) + HttpGetExec_116()) + ((HttpGetExec_117() + HttpGetExec_118()) + HttpGetExec_119())))) + (((((HttpGetExec_120() + HttpGetExec_121()) + HttpGetExec_122()) + ((HttpGetExec_123() + HttpGetExec_124()) + HttpGetExec_125())) + (((HttpGetExec_126() + HttpGetExec_127()) + HttpGetExec_128()) + ((HttpGetExec_129() + HttpGetExec_130()) + HttpGetExec_131()))) + ((((HttpGetExec_132() + HttpGetExec_133()) + HttpGetExec_134()) + ((HttpGetExec_135() + HttpGetExec_136()) + HttpGetExec_137())) + (((HttpGetExec_138() + HttpGetExec_139()) + HttpGetExec_140()) + ((HttpGetExec_141() + HttpGetExec_142()) + HttpGetExec_143()))))), ((((((HttpGetExec_144() + HttpGetExec_145()) + HttpGetExec_146()) + ((HttpGetExec_147() + HttpGetExec_148()) + HttpGetExec_149())) + (((HttpGetExec_150() + HttpGetExec_151()) + HttpGetExec_152()) + ((HttpGetExec_153() + HttpGetExec_154()) + HttpGetExec_155()))) + ((((HttpGetExec_156() + HttpGetExec_157()) + HttpGetExec_158()) + ((HttpGetExec_159() + HttpGetExec_160()) + HttpGetExec_161())) + (((HttpGetExec_162() + HttpGetExec_163()) + HttpGetExec_164()) + ((HttpGetExec_165() + HttpGetExec_166()) + HttpGetExec_167())))) + ((HttpGetExec_168() + HttpGetExec_169()) + (HttpGetExec_170() + HttpGetExec_171()))));
  }

  lemma HttpGetExecPlain()
    ensures '%' !in HttpGetExec()
  {
    HttpGetExecPart2();
    HttpGetExecPart5();
    NoPercentCat((((((((HttpGetExec_000() + HttpGetExec_001()) + HttpGetExec_002()) + ((HttpGetExec_003() + HttpGetExec_004()) + HttpGetExec_005())) + (((HttpGetExec_006() + HttpGetExec_007()) + HttpGetExec_008()) + ((HttpGetExec_009() + HttpGetExec_010()) + HttpGetExec_011()))) + ((((HttpGetExec_012() + HttpGetExec_013()) + HttpGetExec_014()) + ((HttpGetExec_015() + HttpGetExec_016()) + HttpGetExec_017())) + (((HttpGetExec_018() + HttpGetExec_019()) + HttpGetExec_020()) + ((HttpGetExec_021() + HttpGetExec_022()) + HttpGetExec_023())))) + (((((HttpGetExec_024() + HttpGetExec_025()) + HttpGetExec_026()) + ((HttpGetExec_027() + HttpGetExec_028()) + HttpGetExec_029())) + (((HttpGetExec_030() + HttpGetExec_031()) + HttpGetExec_032()) + ((HttpGetExec_033() + HttpGetExec_034()) + HttpGetExec_035()))) + ((((HttpGetExec_036() + HttpGetExec_037()) + HttpGetExec_038()) + ((HttpGetExec_039() + HttpGetExec_040()) + HttpGetExec_041())) + (((HttpGetExec_042() + HttpGetExec_043()) + HttpGetExec_044()) + ((HttpGetExec_045() + HttpGetExec_046()) + HttpGetExec_047()))))) + ((((((HttpGetExec_048() + HttpGetExec_049()) + HttpGetExec_050()) + ((HttpGetExec_051() + HttpGetExec_052()) + HttpGetExec_053())) + (((HttpGetExec_054() + HttpGetExec_055()) + HttpGetExec_056()) + ((HttpGetExec_057() + HttpGetExec_058()) + HttpGetExec_059()))) + ((((HttpGetExec_060() + HttpGetExec_061()) + HttpGetExec_062()) + ((HttpGetExec_063() + HttpGetExec_064()) + HttpGetExec_065())) + (((HttpGetExec_066() + HttpGetExec_067()) + HttpGetExec_068()) + ((HttpGetExec_069() + HttpGetExec_070()) + HttpGetExec_071())))) + (((((HttpGetExec_072() + HttpGetExec_073()) + HttpGetExec_074()) + ((HttpGetExec_075() + HttpGetExec_076()) + HttpGetExec_077())) + (((HttpGetExec_078() + HttpGetExec_079()) + HttpGetExec_080()) + ((HttpGetExec_081() + HttpGetExec_082()) + HttpGetExec_083()))) + ((((HttpGetExec_084() + HttpGetExec_085()) + HttpGetExec_086()) + ((HttpGetExec_087() + HttpGetExec_088()) + HttpGetExec_089())) + (((HttpGetExec_090() + HttpGetExec_091()) + HttpGetExec_092()) + ((HttpGetExec_093() + HttpGetExec_094()) + HttpGetExec_095())))))), (((((((HttpGetExec_096() + HttpGetExec_097()) + HttpGetExec_098()) + ((HttpGetExec_099() + HttpGetExec_100()) + HttpGetExec_101())) + (((HttpGetExec_102() + HttpGetExec_103()) + HttpGetExec_104()) + ((HttpGetExec_105() + HttpGetExec_106()) + HttpGetExec_107()))) + ((((HttpGetExec_108() + HttpGetExec_109()) + HttpGetExec_110()) + ((HttpGetExec_111() + HttpGetExec_112()) + HttpGetExec_113())) + (((HttpGetExec_114() + HttpGetExec_115()) + HttpGetExec_116()) + ((HttpGetExec_117() + HttpGetExec_118()) + HttpGetExec_119())))) + (((((HttpGetExec_120() + HttpGetExec_121()) + HttpGetExec_122()) + ((HttpGetExec_123() + HttpGetExec_124()) + HttpGetExec_125())) + (((HttpGetExec_126() + HttpGetExec_127()) + HttpGetExec_128()) + ((HttpGetExec_129() + HttpGetExec_130()) + HttpGetExec_131()))) + ((((HttpGetExec_132() + HttpGetExec_133()) + HttpGetExec_134()) + ((HttpGetExec_135() + HttpGetExec_136()) + HttpGetExec_137())) + (((HttpGetExec_138() + HttpGetExec_139()) + HttpGetExec_140()) + ((HttpGetExec_141() + HttpGetExec_142()) + HttpGetExec_143()))))) + ((((((HttpGetExec_144() + HttpGetExec_145()) + HttpGetExec_146()) + ((HttpGetExec_147() + HttpGetExec_148()) + HttpGetExec_149())) + (((HttpGetExec_150() + HttpGetExec_151()) + HttpGetExec_152()) + ((HttpGetExec_153() + HttpGetExec_154()) + HttpGetExec_155()))) + ((((HttpGetExec_156() + HttpGetExec_157()) + HttpGetExec_158()) + ((HttpGetExec_159() + HttpGetExec_160()) + HttpGetExec_161())) + (((HttpGetExec_162() + HttpGetExec_163()) + HttpGetExec_164()) + ((HttpGetExec_165() + HttpGetExec_166()) + HttpGetExec_167())))) + ((HttpGetExec_168() + HttpGetExec_169()) + (HttpGetExec_170() + HttpGetExec_171())))));
    NoPercentCharsNoPercent(HttpGetExec());
  }

  /** NODE_HTTP_TASK_POST_EXEC_TEMPLATE of the vs utility: it has no hole either. */
  function HttpPostExec_000(): string { "         try" }
  function HttpPostExec_001(): string { " {\n         " }
  function HttpPostExec_002(): string { " // 执行异步POST" }
  function HttpPostExec_003(): string { "请求\n         " }
  function HttpPostExec_004(): string { " const respo" }
  function HttpPostExec_005(): string { "nse: AxiosRe" }
  function HttpPostExec_006(): string { "sponse = awa" }
  function HttpPostExec_007(): string { "it AsyncHttp" }
  function HttpPostExec_008(): string { "ConnPoolUtil" }
  function HttpPostExec_009(): string { ".doPost(\n   " }
  function HttpPostExec_010(): string { "         url" }
  function HttpPostExec_011(): string { "WithParams,\n" }
  function HttpPostExec_012(): string { "            " }
  function HttpPostExec_013(): string { "5000,\n      " }
  function HttpPostExec_014(): string { "      header" }
  function HttpPostExec_015(): string { "Map,\n       " }
  function HttpPostExec_016(): string { "   );\n\n     " }
  function HttpPostExec_017(): string { "     const r" }
  function HttpPostExec_018(): string { "esponseCode " }
  function HttpPostExec_019(): string { "= response.s" }
  function HttpPostExec_020(): string { "tatus;\n     " }
  function HttpPostExec_021(): string { "     const r" }
  function HttpPostExec_022(): string { "esponseData " }
  function HttpPostExec_023(): string { "= response.d" }
  function HttpPostExec_024(): string { "ata;\n\n      " }
  function HttpPostExec_025(): string { "    // 检查响应状" }
  function HttpPostExec_026(): string { "态\n          " }
  function HttpPostExec_027(): string { "if (response" }
  function HttpPostExec_028(): string { "Code !== 200" }
  function HttpPostExec_029(): string { " || response" }
  function HttpPostExec_030(): string { "Data == null" }
  function HttpPostExec_031(): string { ") {\n        " }
  function HttpPostExec_032(): string { "    throw ne" }
  function HttpPostExec_033(): string { "w Error(`状态码" }
  function HttpPostExec_034(): string { "=${responseC" }
  function HttpPostExec_035(): string { "ode},响应体=${r" }
  function HttpPostExec_036(): string { "esponseData}" }
  function HttpPostExec_037(): string { "`);\n        " }
  function HttpPostExec_038(): string { "  }\n\n       " }
  function HttpPostExec_039(): string { "   // 设置响应体\n" }
  function HttpPostExec_040(): string { "          th" }
  function HttpPostExec_041(): string { "is.setOutput" }
  function HttpPostExec_042(): string { "ResponseBody" }
  function HttpPostExec_043(): string { "(\n          " }
  function HttpPostExec_044(): string { "  typeof res" }
  function HttpPostExec_045(): string { "ponseData ==" }
  function HttpPostExec_046(): string { "= 'string'\n " }
  function HttpPostExec_047(): string { "            " }
  function HttpPostExec_048(): string { " ? responseD" }
  function HttpPostExec_049(): string { "ata\n        " }
  function HttpPostExec_050(): string { "      : JSON" }
  function HttpPostExec_051(): string { ".stringify(r" }
  function HttpPostExec_052(): string { "esponseData)" }
  function HttpPostExec_053(): string { ",\n          " }
  function HttpPostExec_054(): string { ");\n        }" }
  function HttpPostExec_055(): string { " catch (erro" }
  function HttpPostExec_056(): string { "r) {\n       " }
  function HttpPostExec_057(): string { "   this.logg" }
  function HttpPostExec_058(): string { "er.error(\n  " }
  function HttpPostExec_059(): string { "          `f" }
  function HttpPostExec_060(): string { "ailed to req" }
  function HttpPostExec_061(): string { "uest ${urlWi" }
  function HttpPostExec_062(): string { "thParams}, n" }
  function HttpPostExec_063(): string { "odeId = ${th" }
  function HttpPostExec_064(): string { "is.getNodeId" }
  function HttpPostExec_065(): string { "()}`,\n      " }
  function HttpPostExec_066(): string { "      error," }
  function HttpPostExec_067(): string { "\n          )" }
  function HttpPostExec_068(): string { ";\n          " }
  function HttpPostExec_069(): string { "throw new Se" }
  function HttpPostExec_070(): string { "rviceUnavail" }
  function HttpPostExec_071(): string { "ableExceptio" }
  function HttpPostExec_072(): string { "n(\n         " }
  function HttpPostExec_073(): string { "   `请求节点[${t" }
  function HttpPostExec_074(): string { "his.getNodeN" }
  function HttpPostExec_075(): string { "ame()}]失败,UR" }
  function HttpPostExec_076(): string { "L=${urlWithP" }
  function HttpPostExec_077(): string { "arams},msg=$" }
  function HttpPostExec_078(): string { "{error.messa" }
  function HttpPostExec_079(): string { "ge}`,\n      " }
  function HttpPostExec_080(): string { "    );\n     " }
  function HttpPostExec_081(): string { "   }\n      }" }
  function HttpPostExec_082(): string { ";\n\n      // " }
  function HttpPostExec_083(): string { "执行请求（带熔断器支持）" }
  function HttpPostExec_084(): string { "\n      const" }
  function HttpPostExec_085(): string { " circuitBrea" }
  function HttpPostExec_086(): string { "ker = this.c" }
  function HttpPostExec_087(): string { "ircuitBreake" }
  function HttpPostExec_088(): string { "r;\n      if " }
  function HttpPostExec_089(): string { "(circuitBrea" }
  function HttpPostExec_090(): string { "ker) {\n     " }
  function HttpPostExec_091(): string { "   try {\n   " }
  function HttpPostExec_092(): string { "       // 使用" }
  function HttpPostExec_093(): string { "熔断器执行请求\n    " }
  function HttpPostExec_094(): string { "      //    " }
  function HttpPostExec_095(): string { "       - HTT" }
  function HttpPostExec_096(): string { "P请求只有在熔断器允许的" }
  function HttpPostExec_097(): string { "情况下才会执行\n    " }
  function HttpPostExec_098(): string { "      // - 资" }
  function HttpPostExec_099(): string { "源节省 : 熔断状态下不" }
  function HttpPostExec_100(): string { "会浪费网络资源和时间\n " }
  function HttpPostExec_101(): string { "         // " }
  function HttpPostExec_102(): string { "- 快速失败 : 熔断状" }
  function HttpPostExec_103(): string { "态下立即返回错误，不需要" }
  function HttpPostExec_104(): string { "等待超时\n       " }
  function HttpPostExec_105(): string { "   await cir" }
  function HttpPostExec_106(): string { "cuitBreaker." }
  function HttpPostExec_107(): string { "fire(runnabl" }
  function HttpPostExec_108(): string { "e);\n        " }
  function HttpPostExec_109(): string { "} catch (err" }
  function HttpPostExec_110(): string { "or) {\n      " }
  function HttpPostExec_111(): string { "    // 检查是否是" }
  function HttpPostExec_112(): string { "熔断器异常\n      " }
  function HttpPostExec_113(): string { "    if (\n   " }
  function HttpPostExec_114(): string { "         err" }
  function HttpPostExec_115(): string { "or.name === " }
  function HttpPostExec_116(): string { "'OpenCircuit" }
  function HttpPostExec_117(): string { "Error' ||\n  " }
  function HttpPostExec_118(): string { "          er" }
  function HttpPostExec_119(): string { "ror.message." }
  function HttpPostExec_120(): string { "includes('ci" }
  function HttpPostExec_121(): string { "rcuit')\n    " }
  function HttpPostExec_122(): string { "      ) {\n  " }
  function HttpPostExec_123(): string { "          th" }
  function HttpPostExec_124(): string { "is.logger.er" }
  function HttpPostExec_125(): string { "ror(\n       " }
  function HttpPostExec_126(): string { "       `fail" }
  function HttpPostExec_127(): string { "ed to reques" }
  function HttpPostExec_128(): string { "t ${urlWithP" }
  function HttpPostExec_129(): string { "arams}, node" }
  function HttpPostExec_130(): string { "Id = ${this." }
  function HttpPostExec_131(): string { "getNodeId()}" }
  function HttpPostExec_132(): string { ", because it" }
  function HttpPostExec_133(): string { " is in FUSED" }
  function HttpPostExec_134(): string { " state`,\n   " }
  function HttpPostExec_135(): string { "           e" }
  function HttpPostExec_136(): string { "rror,\n      " }
  function HttpPostExec_137(): string { "      );\n   " }
  function HttpPostExec_138(): string { "         thr" }
  function HttpPostExec_139(): string { "ow new Servi" }
  function HttpPostExec_140(): string { "ceUnavailabl" }
  function HttpPostExec_141(): string { "eException(\n" }
  function HttpPostExec_142(): string { "            " }
  function HttpPostExec_143(): string { "  `请求节点[${th" }
  function HttpPostExec_144(): string { "is.getNodeNa" }
  function HttpPostExec_145(): string { "me()}]失败,URL" }
  function HttpPostExec_146(): string { "=${urlWithPa" }
  function HttpPostExec_147(): string { "rams},msg=接口" }
  function HttpPostExec_148(): string { "已熔断`,\n      " }
  function HttpPostExec_149(): string { "      );\n   " }
  function HttpPostExec_150(): string { "       }\n   " }
  function HttpPostExec_151(): string { "       throw" }
  function HttpPostExec_152(): string { " error;\n    " }
  function HttpPostExec_153(): string { "    }\n      " }
  function HttpPostExec_154(): string { "} else {\n   " }
  function HttpPostExec_155(): string { "     // 直接执行" }
  function HttpPostExec_156(): string { "请求\n        a" }
  function HttpPostExec_157(): string { "wait runnabl" }
  function HttpPostExec_158(): string { "e();\n      }" }
  function HttpPostExec_159(): string { "\n    } catch" }
  function HttpPostExec_160(): string { " (error) {\n " }
  function HttpPostExec_161(): string { "     throw n" }
  function HttpPostExec_162(): string { "ew ServiceUn" }
  function HttpPostExec_163(): string { "availableExc" }
  function HttpPostExec_164(): string { "eption(\n    " }
  function HttpPostExec_165(): string { "    `请求节点[${" }
  function HttpPostExec_166(): string { "this.getNode" }
  function HttpPostExec_167(): string { "Name()}]失败,m" }
  function HttpPostExec_168(): string { "sg=${error.m" }
  function HttpPostExec_169(): string { "essage}`,\n  " }
  function HttpPostExec_170(): string { "    );\n    }" }
  function HttpPostExec_171(): string { "\n" }
  function HttpPostExec(): string
  {
    ((((((((HttpPostExec_000() + HttpPostExec_001()) + HttpPostExec_002()) + ((HttpPostExec_003() + HttpPostExec_004()) + HttpPostExec_005())) + (((HttpPostExec_006() + HttpPostExec_007()) + HttpPostExec_008()) + ((HttpPostExec_009() + HttpPostExec_010()) + HttpPostExec_011()))) + ((((HttpPostExec_012() + HttpPostExec_013()) + HttpPostExec_014()) + ((HttpPostExec_015() + HttpPostExec_016()) + HttpPostExec_017())) + (((HttpPostExec_018() + HttpPostExec_019()) + HttpPostExec_020()) + ((HttpPostExec_021() + HttpPostExec_022()) + HttpPostExec_023())))) + (((((HttpPostExec_024() + HttpPostExec_025()) + HttpPostExec_026()) + ((HttpPostExec_027() + HttpPostExec_028()) + HttpPostExec_029())) + (((HttpPostExec_030() + HttpPostExec_031()) + HttpPostExec_032()) + ((HttpPostExec_033() + HttpPostExec_034()) + HttpPostExec_035()))) + ((((HttpPostExec_036() + HttpPostExec_037()) + HttpPostExec_038()) + ((HttpPostExec_039() + HttpPostExec_040()) + HttpPostExec_041())) + (((HttpPostExec_042() + HttpPostExec_043()) + HttpPostExec_044()) + ((HttpPostExec_045() + HttpPostExec_046()) + HttpPostExec_047()))))) + ((((((HttpPostExec_048() + HttpPostExec_049()) + HttpPostExec_050()) + ((HttpPostExec_051() + HttpPostExec_052()) + HttpPostExec_053())) + (((HttpPostExec_054() + HttpPostExec_055()) + HttpPostExec_056()) + ((HttpPostExec_057() + HttpPostExec_058()) + HttpPostExec_059()))) + ((((HttpPostExec_060() + HttpPostExec_061()) + HttpPostExec_062()) + ((HttpPostExec_063() + HttpPostExec_064()) + HttpPostExec_065())) + (((HttpPostExec_066() + HttpPostExec_067()) + HttpPostExec_068()) + ((HttpPostExec_069() + HttpPostExec_070()) + HttpPostExec_071())))) + (((((HttpPostExec_072() + HttpPostExec_073()) + HttpPostExec_074()) + ((HttpPostExec_075() + HttpPostExec_076()) + HttpPostExec_077())) + (((HttpPostExec_078() + HttpPostExec_079()) + HttpPostExec_080()) + ((HttpPostExec_081() + HttpPostExec_082()) + HttpPostExec_083()))) + ((((HttpPostExec_084() + HttpPostExec_085()) + HttpPostExec_086()) + ((HttpPostExec_087() + HttpPostExec_088()) + HttpPostExec_089())) + (((HttpPostExec_090() + HttpPostExec_091()) + HttpPostExec_092()) + ((HttpPostExec_093() + HttpPostExec_094()) + HttpPostExec_095())))))) + (((((((HttpPostExec_096() + HttpPostExec_097()) + HttpPostExec_098()) + ((HttpPostExec_099() + HttpPostExec_100()) + HttpPostExec_101())) + (((HttpPostExec_102() + HttpPostExec_103()) + HttpPostExec_104()) + ((HttpPostExec_105() + HttpPostExec_106()) + HttpPostExec_107()))) + ((((HttpPostExec_108() + HttpPostExec_109()) + HttpPostExec_110()) + ((HttpPostExec_111() + HttpPostExec_112()) + HttpPostExec_113())) + (((HttpPostExec_114() + HttpPostExec_115()) + HttpPostExec_116()) + ((HttpPostExec_117() + HttpPostExec_118()) + HttpPostExec_119())))) + (((((HttpPostExec_120() + HttpPostExec_121()) + HttpPostExec_122()) + ((HttpPostExec_123() + HttpPostExec_124()) + HttpPostExec_125())) + (((HttpPostExec_126() + HttpPostExec_127()) + HttpPostExec_128()) + ((HttpPostExec_129() + HttpPostExec_130()) + HttpPostExec_131()))) + ((((HttpPostExec_132() + HttpPostExec_133()) + HttpPostExec_134()) + ((HttpPostExec_135() + HttpPostExec_136()) + HttpPostExec_137())) + (((HttpPostExec_138() + HttpPostExec_139()) + HttpPostExec_140()) + ((HttpPostExec_141() + HttpPostExec_142()) + HttpPostExec_143()))))) + ((((((HttpPostExec_144() + HttpPostExec_145()) + HttpPostExec_146()) + ((HttpPostExec_147() + HttpPostExec_148()) + HttpPostExec_149())) + (((HttpPostExec_150() + HttpPostExec_151()) + HttpPostExec_152()) + ((HttpPostExec_153() + HttpPostExec_154()) + HttpPostExec_155()))) + ((((HttpPostExec_156() + HttpPostExec_157()) + HttpPostExec_158()) + ((HttpPostExec_159() + HttpPostExec_160()) + HttpPostExec_161())) + (((HttpPostExec_162() + HttpPostExec_163()) + HttpPostExec_164()) + ((HttpPostExec_165() + HttpPostExec_166()) + HttpPostExec_167())))) + ((HttpPostExec_168() + HttpPostExec_169()) + (HttpPostExec_170() + HttpPostExec_171())))))
  }

  lemma HttpPostExecPiece0()
    ensures NoPercentChars(((((HttpPostExec_012() + HttpPostExec_013()) + HttpPostExec_014()) + ((HttpPostExec_015() + HttpPostExec_016()) + HttpPostExec_017())) + (((HttpPostExec_018() + HttpPostExec_019()) + HttpPostExec_020()) + ((HttpPostExec_021() + HttpPostExec_022()) + HttpPostExec_023()))))
  {
    assert NoPercentChars(HttpPostExec_012());
    assert NoPercentChars(HttpPostExec_013());
    assert NoPercentChars(HttpPostExec_014());
    assert NoPercentChars(HttpPostExec_015());
    assert NoPercentChars(HttpPostExec_016());
    assert NoPercentChars(HttpPostExec_017());
    assert NoPercentChars(HttpPostExec_018());
    assert NoPercentChars(HttpPostExec_019());
    assert NoPercentChars(HttpPostExec_020());
    assert NoPercentChars(HttpPostExec_021());
    assert NoPercentChars(HttpPostExec_022());
    assert NoPercentChars(HttpPostExec_023());
    NoPercentCat(HttpPostExec_012(), HttpPostExec_013());
    NoPercentCat((HttpPostExec_012() + HttpPostExec_013()), HttpPostExec_014());
    NoPercentCat(HttpPostExec_015(), HttpPostExec_016());
    NoPercentCat((HttpPostExec_015() + HttpPostExec_016()), HttpPostExec_017());
    NoPercentCat(((HttpPostExec_012() + HttpPostExec_013()) + HttpPostExec_014()), ((HttpPostExec_015() + HttpPostExec_016()) + HttpPostExec_017()));
    NoPercentCat(HttpPostExec_018(), HttpPostExec_019());
    NoPercentCat((HttpPostExec_018() + HttpPostExec_019()), HttpPostExec_020());
    NoPercentCat(HttpPostExec_021(), HttpPostExec_022());
    NoPercentCat((HttpPostExec_021() + HttpPostExec_022()), HttpPostExec_023());
    NoPercentCat(((HttpPostExec_018() + HttpPostExec_019()) + HttpPostExec_020()), ((HttpPostExec_021() + HttpPostExec_022()) + HttpPostExec_023()));
    NoPercentCat((((HttpPostExec_012() + HttpPostExec_013()) + HttpPostExec_014()) + ((HttpPostExec_015() + HttpPostExec_016()) + HttpPostExec_017())), (((HttpPostExec_018() + HttpPostExec_019()) + HttpPostExec_020()) + ((HttpPostExec_021() + HttpPostExec_022()) + HttpPostExec_023())));
  }

  lemma HttpPostExecPiece1()
    ensures NoPercentChars(((((HttpPostExec_024() + HttpPostExec_025()) + HttpPostExec_026()) + ((HttpPostExec_027() + HttpPostExec_028()) + HttpPostExec_029())) + (((HttpPostExec_030() + HttpPostExec_031()) + HttpPostExec_032()) + ((HttpPostExec_033() + HttpPostExec_034()) + HttpPostExec_035()))))
  {
    assert NoPercentChars(HttpPostExec_024());
    assert NoPercentChars(HttpPostExec_025());
    assert NoPercentChars(HttpPostExec_026());
    assert NoPercentChars(HttpPostExec_027());
    assert NoPercentChars(HttpPostExec_028());
    assert NoPercentChars(HttpPostExec_029());
    assert NoPercentChars(HttpPostExec_030());
    assert NoPercentChars(HttpPostExec_031());
    assert NoPercentChars(HttpPostExec_032());
    assert NoPercentChars(HttpPostExec_033());
    assert NoPercentChars(HttpPostExec_034());
    assert NoPercentChars(HttpPostExec_035());
    NoPercentCat(HttpPostExec_024(), HttpPostExec_025());
    NoPercentCat((HttpPostExec_024() + HttpPostExec_025()), HttpPostExec_026());
    NoPercentCat(HttpPostExec_027(), HttpPostExec_028());
    NoPercentCat((HttpPostExec_027() + HttpPostExec_028()), HttpPostExec_029());
    NoPercentCat(((HttpPostExec_024() + HttpPostExec_025()) + HttpPostExec_026()), ((HttpPostExec_027() + HttpPostExec_028()) + HttpPostExec_029()));
    NoPercentCat(HttpPostExec_030(), HttpPostExec_031());
    NoPercentCat((HttpPostExec_030() + HttpPostExec_031()), HttpPostExec_032());
    NoPercentCat(HttpPostExec_033(), HttpPostExec_034());
    NoPercentCat((HttpPostExec_033() + HttpPostExec_034()), HttpPostExec_035());
    NoPercentCat(((HttpPostExec_030() + HttpPostExec_031()) + HttpPostExec_032()), ((HttpPostExec_033() + HttpPostExec_034()) + HttpPostExec_035()));
    NoPercentCat((((HttpPostExec_024() + HttpPostExec_025()) + HttpPostExec_026()) + ((HttpPostExec_027() + HttpPostExec_028()) + HttpPostExec_029())), (((HttpPostExec_030() + HttpPostExec_031()) + HttpPostExec_032()) + ((HttpPostExec_033() + HttpPostExec_034()) + HttpPostExec_035())));
  }

  lemma HttpPostExecPiece2()
    ensures NoPercentChars(((((HttpPostExec_036() + HttpPostExec_037()) + HttpPostExec_038()) + ((HttpPostExec_039() + HttpPostExec_040()) + HttpPostExec_041())) + (((HttpPostExec_042() + HttpPostExec_043()) + HttpPostExec_044()) + ((HttpPostExec_045() + HttpPostExec_046()) + HttpPostExec_047()))))
  {
    assert NoPercentChars(HttpPostExec_036());
    assert NoPercentChars(HttpPostExec_037());
    assert NoPercentChars(HttpPostExec_038());
    assert NoPercentChars(HttpPostExec_039());
    assert NoPercentChars(HttpPostExec_040());
    assert NoPercentChars(HttpPostExec_041());
    assert NoPercentChars(HttpPostExec_042());
    assert NoPercentChars(HttpPostExec_043());
    assert NoPercentChars(HttpPostExec_044());
    assert NoPercentChars(HttpPostExec_045());
    assert NoPercentChars(HttpPostExec_046());
    assert NoPercentChars(HttpPostExec_047());
    NoPercentCat(HttpPostExec_036(), HttpPostExec_037());
    NoPercentCat((HttpPostExec_036() + HttpPostExec_037()), HttpPostExec_038());
    NoPercentCat(HttpPostExec_039(), HttpPostExec_040());
    NoPercentCat((HttpPostExec_039() + HttpPostExec_040()), HttpPostExec_041());
    NoPercentCat(((HttpPostExec_036() + HttpPostExec_037()) + HttpPostExec_038()), ((HttpPostExec_039() + HttpPostExec_040()) + HttpPostExec_041()));
    NoPercentCat(HttpPostExec_042(), HttpPostExec_043());
    NoPercentCat((HttpPostExec_042() + HttpPostExec_043()), HttpPostExec_044());
    NoPercentCat(HttpPostExec_045(), HttpPostExec_046());
    NoPercentCat((HttpPostExec_045() + HttpPostExec_046()), HttpPostExec_047());
    NoPercentCat(((HttpPostExec_042() + HttpPostExec_043()) + HttpPostExec_044()), ((HttpPostExec_045() + HttpPostExec_046()) + HttpPostExec_047()));
    NoPercentCat((((HttpPostExec_036() + HttpPostExec_037()) + HttpPostExec_038()) + ((HttpPostExec_039() + HttpPostExec_040()) + HttpPostExec_041())), (((HttpPostExec_042() + HttpPostExec_043()) + HttpPostExec_044()) + ((HttpPostExec_045() + HttpPostExec_046()) + HttpPostExec_047())));
  }

  lemma HttpPostExecPart0()
    ensures NoPercentChars(((((((HttpPostExec_000() + HttpPostExec_001()) + HttpPostExec_002()) + ((HttpPostExec_003() + HttpPostExec_004()) + HttpPostExec_005())) + (((HttpPostExec_006() + HttpPostExec_007()) + HttpPostExec_008()) + ((HttpPostExec_009() + HttpPostExec_010()) + HttpPostExec_011()))) + ((((HttpPostExec_012() + HttpPostExec_013()) + HttpPostExec_014()) + ((HttpPostExec_015() + HttpPostExec_016()) + HttpPostExec_017())) + (((HttpPostExec_018() + HttpPostExec_019()) + HttpPostExec_020()) + ((HttpPostExec_021() + HttpPostExec_022()) + HttpPostExec_023())))) + (((((HttpPostExec_024() + HttpPostExec_025()) + HttpPostExec_026()) + ((HttpPostExec_027() + HttpPostExec_028()) + HttpPostExec_029())) + (((HttpPostExec_030() + HttpPostExec_031()) + HttpPostExec_032()) + ((HttpPostExec_033() + HttpPostExec_034()) + HttpPostExec_035()))) + ((((HttpPostExec_036() + HttpPostExec_037()) + HttpPostExec_038()) + ((HttpPostExec_039() + HttpPostExec_040()) + HttpPostExec_041())) + (((HttpPostExec_042() + HttpPostExec_043()) + HttpPostExec_044()) + ((HttpPostExec_045() + HttpPostExec_046()) + HttpPostExec_047()))))))
  {
    assert NoPercentChars(HttpPostExec_000());
    assert NoPercentChars(HttpPostExec_001());
    assert NoPercentChars(HttpPostExec_002());
    assert NoPercentChars(HttpPostExec_003());
    assert NoPercentChars(HttpPostExec_004());
    assert NoPercentChars(HttpPostExec_005());
    assert NoPercentChars(HttpPostExec_006());
    assert NoPercentChars(HttpPostExec_007());
    assert NoPercentChars(HttpPostExec_008());
    assert NoPercentChars(HttpPostExec_009());
    assert NoPercentChars(HttpPostExec_010());
    assert NoPercentChars(HttpPostExec_011());
    NoPercentCat(HttpPostExec_000(), HttpPostExec_001());
    NoPercentCat((HttpPostExec_000() + HttpPostExec_001()), HttpPostExec_002());
    NoPercentCat(HttpPostExec_003(), HttpPostExec_004());
    NoPercentCat((HttpPostExec_003() + HttpPostExec_004()), HttpPostExec_005());
    NoPercentCat(((HttpPostExec_000() + HttpPostExec_001()) + HttpPostExec_002()), ((HttpPostExec_003() + HttpPostExec_004()) + HttpPostExec_005()));
    NoPercentCat(HttpPostExec_006(), HttpPostExec_007());
    NoPercentCat((HttpPostExec_006() + HttpPostExec_007()), HttpPostExec_008());
    NoPercentCat(HttpPostExec_009(), HttpPostExec_010());
    NoPercentCat((HttpPostExec_009() + HttpPostExec_010()), HttpPostExec_011());
    NoPercentCat(((HttpPostExec_006() + HttpPostExec_007()) + HttpPostExec_008()), ((HttpPostExec_009() + HttpPostExec_010()) + HttpPostExec_011()));
    NoPercentCat((((HttpPostExec_000() + HttpPostExec_001()) + HttpPostExec_002()) + ((HttpPostExec_003() + HttpPostExec_004()) + HttpPostExec_005())), (((HttpPostExec_006() + HttpPostExec_007()) + HttpPostExec_008()) + ((HttpPostExec_009() + HttpPostExec_010()) + HttpPostExec_011())));
    HttpPostExecPiece0();
    NoPercentCat(((((HttpPostExec_000() + HttpPostExec_001()) + HttpPostExec_002()) + ((HttpPostExec_003() + HttpPostExec_004()) + HttpPostExec_005())) + (((HttpPostExec_006() + HttpPostExec_007()) + HttpPostExec_008()) + ((HttpPostExec_009() + HttpPostExec_010()) + HttpPostExec_011()))), ((((HttpPostExec_012() + HttpPostExec_013()) + HttpPostExec_014()) + ((HttpPostExec_015() + HttpPostExec_016()) + HttpPostExec_017())) + (((HttpPostExec_018() + HttpPostExec_019()) + HttpPostExec_020()) + ((HttpPostExec_021() + HttpPostExec_022()) + HttpPostExec_023()))));
    HttpPostExecPiece1();
    HttpPostExecPiece2();
    NoPercentCat(((((HttpPostExec_024() + HttpPostExec_025()) + HttpPostExec_026()) + ((HttpPostExec_027() + HttpPostExec_028()) + HttpPostExec_029())) + (((HttpPostExec_030() + HttpPostExec_031()) + HttpPostExec_032()) + ((HttpPostExec_033() + HttpPostExec_034()) + HttpPostExec_035()))), ((((HttpPostExec_036() + HttpPostExec_037()) + HttpPostExec_038()) + ((HttpPostExec_039() + HttpPostExec_040()) + HttpPostExec_041())) + (((HttpPostExec_042() + HttpPostExec_043()) + HttpPostExec_044()) + ((HttpPostExec_045() + HttpPostExec_046()) + HttpPostExec_047()))));
    NoPercentCat((((((HttpPostExec_000() + HttpPostExec_001()) + HttpPostExec_002()) + ((HttpPostExec_003() + HttpPostExec_004()) + HttpPostExec_005())) + (((HttpPostExec_006() + HttpPostExec_007()) + HttpPostExec_008()) + ((HttpPostExec_009() + HttpPostExec_010()) + HttpPostExec_011()))) + ((((HttpPostExec_012() + HttpPostExec_013()) + HttpPostExec_014()) + ((HttpPostExec_015() + HttpPostExec_016()) + HttpPostExec_017())) + (((HttpPostExec_018() + HttpPostExec_019()) + HttpPostExec_020()) + ((HttpPostExec_021() + HttpPostExec_022()) + HttpPostExec_023())))), (((((HttpPostExec_024() + HttpPostExec_025()) + HttpPostExec_026()) + ((HttpPostExec_027() + HttpPostExec_028()) + HttpPostExec_029())) + (((HttpPostExec_030() + HttpPostExec_031()) + HttpPostExec_032()) + ((HttpPostExec_033() + HttpPostExec_034()) + HttpPostExec_035()))) + ((((HttpPostExec_036() + HttpPostExec_037()) + HttpPostExec_038()) + ((HttpPostExec_039() + HttpPostExec_040()) + HttpPostExec_041())) + (((HttpPostExec_042() + HttpPostExec_043()) + HttpPostExec_044()) + ((HttpPostExec_045() + HttpPostExec_046()) + HttpPostExec_047())))));
  }

  lemma HttpPostExecPiece3()
    ensures NoPercentChars(((((HttpPostExec_060() + HttpPostExec_061()) + HttpPostExec_062()) + ((HttpPostExec_063() + HttpPostExec_064()) + HttpPostExec_065())) + (((HttpPostExec_066() + HttpPostExec_067()) + HttpPostExec_068()) + ((HttpPostExec_069() + HttpPostExec_070()) + HttpPostExec_071()))))
  {
    assert NoPercentChars(HttpPostExec_060());
    assert NoPercentChars(HttpPostExec_061());
    assert NoPercentChars(HttpPostExec_062());
    assert NoPercentChars(HttpPostExec_063());
    assert NoPercentChars(HttpPostExec_064());
    assert NoPercentChars(HttpPostExec_065());
    assert NoPercentChars(HttpPostExec_066());
    assert NoPercentChars(HttpPostExec_067());
    assert NoPercentChars(HttpPostExec_068());
    assert NoPercentChars(HttpPostExec_069());
    assert NoPercentChars(HttpPostExec_070());
    assert NoPercentChars(HttpPostExec_071());
    NoPercentCat(HttpPostExec_060(), HttpPostExec_061());
    NoPercentCat((HttpPostExec_060() + HttpPostExec_061()), HttpPostExec_062());
    NoPercentCat(HttpPostExec_063(), HttpPostExec_064());
    NoPercentCat((HttpPostExec_063() + HttpPostExec_064()), HttpPostExec_065());
    NoPercentCat(((HttpPostExec_060() + HttpPostExec_061()) + HttpPostExec_062()), ((HttpPostExec_063() + HttpPostExec_064()) + HttpPostExec_065()));
    NoPercentCat(HttpPostExec_066(), HttpPostExec_067());
    NoPercentCat((HttpPostExec_066() + HttpPostExec_067()), HttpPostExec_068());
    NoPercentCat(HttpPostExec_069(), HttpPostExec_070());
    NoPercentCat((HttpPostExec_069() + HttpPostExec_070()), HttpPostExec_071());
    NoPercentCat(((HttpPostExec_066() + HttpPostExec_067()) + HttpPostExec_068()), ((HttpPostExec_069() + HttpPostExec_070()) + HttpPostExec_071()));
    NoPercentCat((((HttpPostExec_060() + HttpPostExec_061()) + HttpPostExec_062()) + ((HttpPostExec_063() + HttpPostExec_064()) + HttpPostExec_065())), (((HttpPostExec_066() + HttpPostExec_067()) + HttpPostExec_068()) + ((HttpPostExec_069() + HttpPostExec_070()) + HttpPostExec_071())));
  }

  lemma HttpPostExecPiece4()
    ensures NoPercentChars(((((HttpPostExec_072() + HttpPostExec_073()) + HttpPostExec_074()) + ((HttpPostExec_075() + HttpPostExec_076()) + HttpPostExec_077())) + (((HttpPostExec_078() + HttpPostExec_079()) + HttpPostExec_080()) + ((HttpPostExec_081() + HttpPostExec_082()) + HttpPostExec_083()))))
  {
    assert NoPercentChars(HttpPostExec_072());
    assert NoPercentChars(HttpPostExec_073());
    assert NoPercentChars(HttpPostExec_074());
    assert NoPercentChars(HttpPostExec_075());
    assert NoPercentChars(HttpPostExec_076());
    assert NoPercentChars(HttpPostExec_077());
    assert NoPercentChars(HttpPostExec_078());
    assert NoPercentChars(HttpPostExec_079());
    assert NoPercentChars(HttpPostExec_080());
    assert NoPercentChars(HttpPostExec_081());
    assert NoPercentChars(HttpPostExec_082());
    assert NoPercentChars(HttpPostExec_083());
    NoPercentCat(HttpPostExec_072(), HttpPostExec_073());
    NoPercentCat((HttpPostExec_072() + HttpPostExec_073()), HttpPostExec_074());
    NoPercentCat(HttpPostExec_075(), HttpPostExec_076());
    NoPercentCat((HttpPostExec_075() + HttpPostExec_076()), HttpPostExec_077());
    NoPercentCat(((HttpPostExec_072() + HttpPostExec_073()) + HttpPostExec_074()), ((HttpPostExec_075() + HttpPostExec_076()) + HttpPostExec_077()));
    NoPercentCat(HttpPostExec_078(), HttpPostExec_079());
    NoPercentCat((HttpPostExec_078() + HttpPostExec_079()), HttpPostExec_080());
    NoPercentCat(HttpPostExec_081(), HttpPostExec_082());
    NoPercentCat((HttpPostExec_081() + HttpPostExec_082()), HttpPostExec_083());
    NoPercentCat(((HttpPostExec_078() + HttpPostExec_079()) + HttpPostExec_080()), ((HttpPostExec_081() + HttpPostExec_082()) + HttpPostExec_083()));
    NoPercentCat((((HttpPostExec_072() + HttpPostExec_073()) + HttpPostExec_074()) + ((HttpPostExec_075() + HttpPostExec_076()) + HttpPostExec_077())), (((HttpPostExec_078() + HttpPostExec_079()) + HttpPostExec_080()) + ((HttpPostExec_081() + HttpPostExec_082()) + HttpPostExec_083())));
  }

  lemma HttpPostExecPiece5()
    ensures NoPercentChars(((((HttpPostExec_084() + HttpPostExec_085()) + HttpPostExec_086()) + ((HttpPostExec_087() + HttpPostExec_088()) + HttpPostExec_089())) + (((HttpPostExec_090() + HttpPostExec_091()) + HttpPostExec_092()) + ((HttpPostExec_093() + HttpPostExec_094()) + HttpPostExec_095()))))
  {
    assert NoPercentChars(HttpPostExec_084());
    assert NoPercentChars(HttpPostExec_085());
    assert NoPercentChars(HttpPostExec_086());
    assert NoPercentChars(HttpPostExec_087());
    assert NoPercentChars(HttpPostExec_088());
    assert NoPercentChars(HttpPostExec_089());
    assert NoPercentChars(HttpPostExec_090());
    assert NoPercentChars(HttpPostExec_091());
    assert NoPercentChars(HttpPostExec_092());
    assert NoPercentChars(HttpPostExec_093());
    assert NoPercentChars(HttpPostExec_094());
    assert NoPercentChars(HttpPostExec_095());
    NoPercentCat(HttpPostExec_084(), HttpPostExec_085());
    NoPercentCat((HttpPostExec_084() + HttpPostExec_085()), HttpPostExec_086());
    NoPercentCat(HttpPostExec_087(), HttpPostExec_088());
    NoPercentCat((HttpPostExec_087() + HttpPostExec_088()), HttpPostExec_089());
    NoPercentCat(((HttpPostExec_084() + HttpPostExec_085()) + HttpPostExec_086()), ((HttpPostExec_087() + HttpPostExec_088()) + HttpPostExec_089()));
    NoPercentCat(HttpPostExec_090(), HttpPostExec_091());
    NoPercentCat((HttpPostExec_090() + HttpPostExec_091()), HttpPostExec_092());
    NoPercentCat(HttpPostExec_093(), HttpPostExec_094());
    NoPercentCat((HttpPostExec_093() + HttpPostExec_094()), HttpPostExec_095());
    NoPercentCat(((HttpPostExec_090() + HttpPostExec_091()) + HttpPostExec_092()), ((HttpPostExec_093() + HttpPostExec_094()) + HttpPostExec_095()));
    NoPercentCat((((HttpPostExec_084() + HttpPostExec_085()) + HttpPostExec_086()) + ((HttpPostExec_087() + HttpPostExec_088()) + HttpPostExec_089())), (((HttpPostExec_090() + HttpPostExec_091()) + HttpPostExec_092()) + ((HttpPostExec_093() + HttpPostExec_094()) + HttpPostExec_095())));
  }

  lemma HttpPostExecPart1()
    ensures NoPercentChars(((((((HttpPostExec_048() + HttpPostExec_049()) + HttpPostExec_050()) + ((HttpPostExec_051() + HttpPostExec_052()) + HttpPostExec_053())) + (((HttpPostExec_054() + HttpPostExec_055()) + HttpPostExec_056()) + ((HttpPostExec_057() + HttpPostExec_058()) + HttpPostExec_059()))) + ((((HttpPostExec_060() + HttpPostExec_061()) + HttpPostExec_062()) + ((HttpPostExec_063() + HttpPostExec_064()) + HttpPostExec_065())) + (((HttpPostExec_066() + HttpPostExec_067()) + HttpPostExec_068()) + ((HttpPostExec_069() + HttpPostExec_070()) + HttpPostExec_071())))) + (((((HttpPostExec_072() + HttpPostExec_073()) + HttpPostExec_074()) + ((HttpPostExec_075() + HttpPostExec_076()) + HttpPostExec_077())) + (((HttpPostExec_078() + HttpPostExec_079()) + HttpPostExec_080()) + ((HttpPostExec_081() + HttpPostExec_082()) + HttpPostExec_083()))) + ((((HttpPostExec_084() + HttpPostExec_085()) + HttpPostExec_086()) + ((HttpPostExec_087() + HttpPostExec_088()) + HttpPostExec_089())) + (((HttpPostExec_090() + HttpPostExec_091()) + HttpPostExec_092()) + ((HttpPostExec_093() + HttpPostExec_094()) + HttpPostExec_095()))))))
  {
    assert NoPercentChars(HttpPostExec_048());
    assert NoPercentChars(HttpPostExec_049());
    assert NoPercentChars(HttpPostExec_050());
    assert NoPercentChars(HttpPostExec_051());
    assert NoPercentChars(HttpPostExec_052());
    assert NoPercentChars(HttpPostExec_053());
    assert NoPercentChars(HttpPostExec_054());
    assert NoPercentChars(HttpPostExec_055());
    assert NoPercentChars(HttpPostExec_056());
    assert NoPercentChars(HttpPostExec_057());
    assert NoPercentChars(HttpPostExec_058());
    assert NoPercentChars(HttpPostExec_059());
    NoPercentCat(HttpPostExec_048(), HttpPostExec_049());
    NoPercentCat((HttpPostExec_048() + HttpPostExec_049()), HttpPostExec_050());
    NoPercentCat(HttpPostExec_051(), HttpPostExec_052());
    NoPercentCat((HttpPostExec_051() + HttpPostExec_052()), HttpPostExec_053());
    NoPercentCat(((HttpPostExec_048() + HttpPostExec_049()) + HttpPostExec_050()), ((HttpPostExec_051() + HttpPostExec_052()) + HttpPostExec_053()));
    NoPercentCat(HttpPostExec_054(), HttpPostExec_055());
    NoPercentCat((HttpPostExec_054() + HttpPostExec_055()), HttpPostExec_056());
    NoPercentCat(HttpPostExec_057(), HttpPostExec_058());
    NoPercentCat((HttpPostExec_057() + HttpPostExec_058()), HttpPostExec_059());
    NoPercentCat(((HttpPostExec_054() + HttpPostExec_055()) + HttpPostExec_056()), ((HttpPostExec_057() + HttpPostExec_058()) + HttpPostExec_059()));
    NoPercentCat((((HttpPostExec_048() + HttpPostExec_049()) + HttpPostExec_050()) + ((HttpPostExec_051() + HttpPostExec_052()) + HttpPostExec_053())), (((HttpPostExec_054() + HttpPostExec_055()) + HttpPostExec_056()) + ((HttpPostExec_057() + HttpPostExec_058()) + HttpPostExec_059())));
    HttpPostExecPiece3();
    NoPercentCat(((((HttpPostExec_048() + HttpPostExec_049()) + HttpPostExec_050()) + ((HttpPostExec_051() + HttpPostExec_052()) + HttpPostExec_053())) + (((HttpPostExec_054() + HttpPostExec_055()) + HttpPostExec_056()) + ((HttpPostExec_057() + HttpPostExec_058()) + HttpPostExec_059()))), ((((HttpPostExec_060() + HttpPostExec_061()) + HttpPostExec_062()) + ((HttpPostExec_063() + HttpPostExec_064()) + HttpPostExec_065())) + (((HttpPostExec_066() + HttpPostExec_067()) + HttpPostExec_068()) + ((HttpPostExec_069() + HttpPostExec_070()) + HttpPostExec_071()))));
    HttpPostExecPiece4();
    HttpPostExecPiece5();
    NoPercentCat(((((HttpPostExec_072() + HttpPostExec_073()) + HttpPostExec_074()) + ((HttpPostExec_075() + HttpPostExec_076()) + HttpPostExec_077())) + (((HttpPostExec_078() + HttpPostExec_079()) + HttpPostExec_080()) + ((HttpPostExec_081() + HttpPostExec_082()) + HttpPostExec_083()))), ((((HttpPostExec_084() + HttpPostExec_085()) + HttpPostExec_086()) + ((HttpPostExec_087() + HttpPostExec_088()) + HttpPostExec_089())) + (((HttpPostExec_090() + HttpPostExec_091()) + HttpPostExec_092()) + ((HttpPostExec_093() + HttpPostExec_094()) + HttpPostExec_095()))));
    NoPercentCat((((((HttpPostExec_048() + HttpPostExec_049()) + HttpPostExec_050()) + ((HttpPostExec_051() + HttpPostExec_052()) + HttpPostExec_053())) + (((HttpPostExec_054() + HttpPostExec_055()) + HttpPostExec_056()) + ((HttpPostExec_057() + HttpPostExec_058()) + HttpPostExec_059()))) + ((((HttpPostExec_060() + HttpPostExec_061()) + HttpPostExec_062()) + ((HttpPostExec_063() + HttpPostExec_064()) + HttpPostExec_065())) + (((HttpPostExec_066() + HttpPostExec_067()) + HttpPostExec_068()) + ((HttpPostExec_069() + HttpPostExec_070()) + HttpPostExec_071())))), (((((HttpPostExec_072() + HttpPostExec_073()) + HttpPostExec_074()) + ((HttpPostExec_075() + HttpPostExec_076()) + HttpPostExec_077())) + (((HttpPostExec_078() + HttpPostExec_079()) + HttpPostExec_080()) + ((HttpPostExec_081() + HttpPostExec_082()) + HttpPostExec_083()))) + ((((HttpPostExec_084() + HttpPostExec_085()) + HttpPostExec_086()) + ((HttpPostExec_087() + HttpPostExec_088()) + HttpPostExec_089())) + (((HttpPostExec_090() + HttpPostExec_091()) + HttpPostExec_092()) + ((HttpPostExec_093() + HttpPostExec_094()) + HttpPostExec_095())))));
  }

  lemma HttpPostExecPart2()
    ensures NoPercentChars((((((((HttpPostExec_000() + HttpPostExec_001()) + HttpPostExec_002()) + ((HttpPostExec_003() + HttpPostExec_004()) + HttpPostExec_005())) + (((HttpPostExec_006() + HttpPostExec_007()) + HttpPostExec_008()) + ((HttpPostExec_009() + HttpPostExec_010()) + HttpPostExec_011()))) + ((((HttpPostExec_012() + HttpPostExec_013()) + HttpPostExec_014()) + ((HttpPostExec_015() + HttpPostExec_016()) + HttpPostExec_017())) + (((HttpPostExec_018() + HttpPostExec_019()) + HttpPostExec_020()) + ((HttpPostExec_021() + HttpPostExec_022()) + HttpPostExec_023())))) + (((((HttpPostExec_024() + HttpPostExec_025()) + HttpPostExec_026()) + ((HttpPostExec_027() + HttpPostExec_028()) + HttpPostExec_029())) + (((HttpPostExec_030() + HttpPostExec_031()) + HttpPostExec_032()) + ((HttpPostExec_033() + HttpPostExec_034()) + HttpPostExec_035()))) + ((((HttpPostExec_036() + HttpPostExec_037()) + HttpPostExec_038()) + ((HttpPostExec_039() + HttpPostExec_040()) + HttpPostExec_041())) + (((HttpPostExec_042() + HttpPostExec_043()) + HttpPostExec_044()) + ((HttpPostExec_045() + HttpPostExec_046()) + HttpPostExec_047()))))) + ((((((HttpPostExec_048() + HttpPostExec_049()) + HttpPostExec_050()) + ((HttpPostExec_051() + HttpPostExec_052()) + HttpPostExec_053())) + (((HttpPostExec_054() + HttpPostExec_055()) + HttpPostExec_056()) + ((HttpPostExec_057() + HttpPostExec_058()) + HttpPostExec_059()))) + ((((HttpPostExec_060() + HttpPostExec_061()) + HttpPostExec_062()) + ((HttpPostExec_063() + HttpPostExec_064()) + HttpPostExec_065())) + (((HttpPostExec_066() + HttpPostExec_067()) + HttpPostExec_068()) + ((HttpPostExec_069() + HttpPostExec_070()) + HttpPostExec_071())))) + (((((HttpPostExec_072() + HttpPostExec_073()) + HttpPostExec_074()) + ((HttpPostExec_075() + HttpPostExec_076()) + HttpPostExec_077())) + (((HttpPostExec_078() + HttpPostExec_079()) + HttpPostExec_080()) + ((HttpPostExec_081() + HttpPostExec_082()) + HttpPostExec_083()))) + ((((HttpPostExec_084() + HttpPostExec_085()) + HttpPostExec_086()) + ((HttpPostExec_087() + HttpPostExec_088()) + HttpPostExec_089())) + (((HttpPostExec_090() + HttpPostExec_091()) + HttpPostExec_092()) + ((HttpPostExec_093() + HttpPostExec_094()) + HttpPostExec_095())))))))
  {
    HttpPostExecPart0();
    HttpPostExecPart1();
    NoPercentCat(((((((HttpPostExec_000() + HttpPostExec_001()) + HttpPostExec_002()) + ((HttpPostExec_003() + HttpPostExec_004()) + HttpPostExec_005())) + (((HttpPostExec_006() + HttpPostExec_007()) + HttpPostExec_008()) + ((HttpPostExec_009() + HttpPostExec_010()) + HttpPostExec_011()))) + ((((HttpPostExec_012() + HttpPostExec_013()) + HttpPostExec_014()) + ((HttpPostExec_015() + HttpPostExec_016()) + HttpPostExec_017())) + (((HttpPostExec_018() + HttpPostExec_019()) + HttpPostExec_020()) + ((HttpPostExec_021() + HttpPostExec_022()) + HttpPostExec_023())))) + (((((HttpPostExec_024() + HttpPostExec_025()) + HttpPostExec_026()) + ((HttpPostExec_027() + HttpPostExec_028()) + HttpPostExec_029())) + (((HttpPostExec_030() + HttpPostExec_031()) + HttpPostExec_032()) + ((HttpPostExec_033() + HttpPostExec_034()) + HttpPostExec_035()))) + ((((HttpPostExec_036() + HttpPostExec_037()) + HttpPostExec_038()) + ((HttpPostExec_039() + HttpPostExec_040()) + HttpPostExec_041())) + (((HttpPostExec_042() + HttpPostExec_043()) + HttpPostExec_044()) + ((HttpPostExec_045() + HttpPostExec_046()) + HttpPostExec_047()))))), ((((((HttpPostExec_048() + HttpPostExec_049()) + HttpPostExec_050()) + ((HttpPostExec_051() + HttpPostExec_052()) + HttpPostExec_053())) + (((HttpPostExec_054() + HttpPostExec_055()) + HttpPostExec_056()) + ((HttpPostExec_057() + HttpPostExec_058()) + HttpPostExec_059()))) + ((((HttpPostExec_060() + HttpPostExec_061()) + HttpPostExec_062()) + ((HttpPostExec_063() + HttpPostExec_064()) + HttpPostExec_065())) + (((HttpPostExec_066() + HttpPostExec_067()) + HttpPostExec_068()) + ((HttpPostExec_069() + HttpPostExec_070()) + HttpPostExec_071())))) + (((((HttpPostExec_072() + HttpPostExec_073()) + HttpPostExec_074()) + ((HttpPostExec_075() + HttpPostExec_076()) + HttpPostExec_077())) + (((HttpPostExec_078() + HttpPostExec_079()) + HttpPostExec_080()) + ((HttpPostExec_081() + HttpPostExec_082()) + HttpPostExec_083()))) + ((((HttpPostExec_084() + HttpPostExec_085()) + HttpPostExec_086()) + ((HttpPostExec_087() + HttpPostExec_088()) + HttpPostExec_089())) + (((HttpPostExec_090() + HttpPostExec_091()) + HttpPostExec_092()) + ((HttpPostExec_093() + HttpPostExec_094()) + HttpPostExec_095()))))));
  }

  lemma HttpPostExecPiece6()
    ensures NoPercentChars(((((HttpPostExec_108() + HttpPostExec_109()) + HttpPostExec_110()) + ((HttpPostExec_111() + HttpPostExec_112()) + HttpPostExec_113())) + (((HttpPostExec_114() + HttpPostExec_115()) + HttpPostExec_116()) + ((HttpPostExec_117() + HttpPostExec_118()) + HttpPostExec_119()))))
  {
    assert NoPercentChars(HttpPostExec_108());
    assert NoPercentChars(HttpPostExec_109());
    assert NoPercentChars(HttpPostExec_110());
    assert NoPercentChars(HttpPostExec_111());
    assert NoPercentChars(HttpPostExec_112());
    assert NoPercentChars(HttpPostExec_113());
    assert NoPercentChars(HttpPostExec_114());
    assert NoPercentChars(HttpPostExec_115());
    assert NoPercentChars(HttpPostExec_116());
    assert NoPercentChars(HttpPostExec_117());
    assert NoPercentChars(HttpPostExec_118());
    assert NoPercentChars(HttpPostExec_119());
    NoPercentCat(HttpPostExec_108(), HttpPostExec_109());
    NoPercentCat((HttpPostExec_108() + HttpPostExec_109()), HttpPostExec_110());
    NoPercentCat(HttpPostExec_111(), HttpPostExec_112());
    NoPercentCat((HttpPostExec_111() + HttpPostExec_112()), HttpPostExec_113());
    NoPercentCat(((HttpPostExec_108() + HttpPostExec_109()) + HttpPostExec_110()), ((HttpPostExec_111() + HttpPostExec_112()) + HttpPostExec_113()));
    NoPercentCat(HttpPostExec_114(), HttpPostExec_115());
    NoPercentCat((HttpPostExec_114() + HttpPostExec_115()), HttpPostExec_116());
    NoPercentCat(HttpPostExec_117(), HttpPostExec_118());
    NoPercentCat((HttpPostExec_117() + HttpPostExec_118()), HttpPostExec_119());
    NoPercentCat(((HttpPostExec_114() + HttpPostExec_115()) + HttpPostExec_116()), ((HttpPostExec_117() + HttpPostExec_118()) + HttpPostExec_119()));
    NoPercentCat((((HttpPostExec_108() + HttpPostExec_109()) + HttpPostExec_110()) + ((HttpPostExec_111() + HttpPostExec_112()) + HttpPostExec_113())), (((HttpPostExec_114() + HttpPostExec_115()) + HttpPostExec_116()) + ((HttpPostExec_117() + HttpPostExec_118()) + HttpPostExec_119())));
  }

  lemma HttpPostExecPiece7()
    ensures NoPercentChars(((((HttpPostExec_120() + HttpPostExec_121()) + HttpPostExec_122()) + ((HttpPostExec_123() + HttpPostExec_124()) + HttpPostExec_125())) + (((HttpPostExec_126() + HttpPostExec_127()) + HttpPostExec_128()) + ((HttpPostExec_129() + HttpPostExec_130()) + HttpPostExec_131()))))
  {
    assert NoPercentChars(HttpPostExec_120());
    assert NoPercentChars(HttpPostExec_121());
    assert NoPercentChars(HttpPostExec_122());
    assert NoPercentChars(HttpPostExec_123());
    assert NoPercentChars(HttpPostExec_124());
    assert NoPercentChars(HttpPostExec_125());
    assert NoPercentChars(HttpPostExec_126());
    assert NoPercentChars(HttpPostExec_127());
    assert NoPercentChars(HttpPostExec_128());
    assert NoPercentChars(HttpPostExec_129());
    assert NoPercentChars(HttpPostExec_130());
    assert NoPercentChars(HttpPostExec_131());
    NoPercentCat(HttpPostExec_120(), HttpPostExec_121());
    NoPercentCat((HttpPostExec_120() + HttpPostExec_121()), HttpPostExec_122());
    NoPercentCat(HttpPostExec_123(), HttpPostExec_124());
    NoPercentCat((HttpPostExec_123() + HttpPostExec_124()), HttpPostExec_125());
    NoPercentCat(((HttpPostExec_120() + HttpPostExec_121()) + HttpPostExec_122()), ((HttpPostExec_123() + HttpPostExec_124()) + HttpPostExec_125()));
    NoPercentCat(HttpPostExec_126(), HttpPostExec_127());
    NoPercentCat((HttpPostExec_126() + HttpPostExec_127()), HttpPostExec_128());
    NoPercentCat(HttpPostExec_129(), HttpPostExec_130());
    NoPercentCat((HttpPostExec_129() + HttpPostExec_130()), HttpPostExec_131());
    NoPercentCat(((HttpPostExec_126() + HttpPostExec_127()) + HttpPostExec_128()), ((HttpPostExec_129() + HttpPostExec_130()) + HttpPostExec_131()));
    NoPercentCat((((HttpPostExec_120() + HttpPostExec_121()) + HttpPostExec_122()) + ((HttpPostExec_123() + HttpPostExec_124()) + HttpPostExec_125())), (((HttpPostExec_126() + HttpPostExec_127()) + HttpPostExec_128()) + ((HttpPostExec_129() + HttpPostExec_130()) + HttpPostExec_131())));
  }

  lemma HttpPostExecPiece8()
    ensures NoPercentChars(((((HttpPostExec_132() + HttpPostExec_133()) + HttpPostExec_134()) + ((HttpPostExec_135() + HttpPostExec_136()) + HttpPostExec_137())) + (((HttpPostExec_138() + HttpPostExec_139()) + HttpPostExec_140()) + ((HttpPostExec_141() + HttpPostExec_142()) + HttpPostExec_143()))))
  {
    assert NoPercentChars(HttpPostExec_132());
    assert NoPercentChars(HttpPostExec_133());
    assert NoPercentChars(HttpPostExec_134());
    assert NoPercentChars(HttpPostExec_135());
    assert NoPercentChars(HttpPostExec_136());
    assert NoPercentChars(HttpPostExec_137());
    assert NoPercentChars(HttpPostExec_138());
    assert NoPercentChars(HttpPostExec_139());
    assert NoPercentChars(HttpPostExec_140());
    assert NoPercentChars(HttpPostExec_141());
    assert NoPercentChars(HttpPostExec_142());
    assert NoPercentChars(HttpPostExec_143());
    NoPercentCat(HttpPostExec_132(), HttpPostExec_133());
    NoPercentCat((HttpPostExec_132() + HttpPostExec_133()), HttpPostExec_134());
    NoPercentCat(HttpPostExec_135(), HttpPostExec_136());
    NoPercentCat((HttpPostExec_135() + HttpPostExec_136()), HttpPostExec_137());
    NoPercentCat(((HttpPostExec_132() + HttpPostExec_133()) + HttpPostExec_134()), ((HttpPostExec_135() + HttpPostExec_136()) + HttpPostExec_137()));
    NoPercentCat(HttpPostExec_138(), HttpPostExec_139());
    NoPercentCat((HttpPostExec_138() + HttpPostExec_139()), HttpPostExec_140());
    NoPercentCat(HttpPostExec_141(), HttpPostExec_142());
    NoPercentCat((HttpPostExec_141() + HttpPostExec_142()), HttpPostExec_143());
    NoPercentCat(((HttpPostExec_138() + HttpPostExec_139()) + HttpPostExec_140()), ((HttpPostExec_141() + HttpPostExec_142()) + HttpPostExec_143()));
    NoPercentCat((((HttpPostExec_132() + HttpPostExec_133()) + HttpPostExec_134()) + ((HttpPostExec_135() + HttpPostExec_136()) + HttpPostExec_137())), (((HttpPostExec_138() + HttpPostExec_139()) + HttpPostExec_140()) + ((HttpPostExec_141() + HttpPostExec_142()) + HttpPostExec_143())));
  }

  lemma HttpPostExecPart3()
    ensures NoPercentChars(((((((HttpPostExec_096() + HttpPostExec_097()) + HttpPostExec_098()) + ((HttpPostExec_099() + HttpPostExec_100()) + HttpPostExec_101())) + (((HttpPostExec_102() + HttpPostExec_103()) + HttpPostExec_104()) + ((HttpPostExec_105() + HttpPostExec_106()) + HttpPostExec_107()))) + ((((HttpPostExec_108() + HttpPostExec_109()) + HttpPostExec_110()) + ((HttpPostExec_111() + HttpPostExec_112()) + HttpPostExec_113())) + (((HttpPostExec_114() + HttpPostExec_115()) + HttpPostExec_116()) + ((HttpPostExec_117() + HttpPostExec_118()) + HttpPostExec_119())))) + (((((HttpPostExec_120() + HttpPostExec_121()) + HttpPostExec_122()) + ((HttpPostExec_123() + HttpPostExec_124()) + HttpPostExec_125())) + (((HttpPostExec_126() + HttpPostExec_127()) + HttpPostExec_128()) + ((HttpPostExec_129() + HttpPostExec_130()) + HttpPostExec_131()))) + ((((HttpPostExec_132() + HttpPostExec_133()) + HttpPostExec_134()) + ((HttpPostExec_135() + HttpPostExec_136()) + HttpPostExec_137())) + (((HttpPostExec_138() + HttpPostExec_139()) + HttpPostExec_140()) + ((HttpPostExec_141() + HttpPostExec_142()) + HttpPostExec_143()))))))
  {
    assert NoPercentChars(HttpPostExec_096());
    assert NoPercentChars(HttpPostExec_097());
    assert NoPercentChars(HttpPostExec_098());
    assert NoPercentChars(HttpPostExec_099());
    assert NoPercentChars(HttpPostExec_100());
    assert NoPercentChars(HttpPostExec_101());
    assert NoPercentChars(HttpPostExec_102());
    assert NoPercentChars(HttpPostExec_103());
    assert NoPercentChars(HttpPostExec_104());
    assert NoPercentChars(HttpPostExec_105());
    assert NoPercentChars(HttpPostExec_106());
    assert NoPercentChars(HttpPostExec_107());
    NoPercentCat(HttpPostExec_096(), HttpPostExec_097());
    NoPercentCat((HttpPostExec_096() + HttpPostExec_097()), HttpPostExec_098());
    NoPercentCat(HttpPostExec_099(), HttpPostExec_100());
    NoPercentCat((HttpPostExec_099() + HttpPostExec_100()), HttpPostExec_101());
    NoPercentCat(((HttpPostExec_096() + HttpPostExec_097()) + HttpPostExec_098()), ((HttpPostExec_099() + HttpPostExec_100()) + HttpPostExec_101()));
    NoPercentCat(HttpPostExec_102(), HttpPostExec_103());
    NoPercentCat((HttpPostExec_102() + HttpPostExec_103()), HttpPostExec_104());
    NoPercentCat(HttpPostExec_105(), HttpPostExec_106());
    NoPercentCat((HttpPostExec_105() + HttpPostExec_106()), HttpPostExec_107());
    NoPercentCat(((HttpPostExec_102() + HttpPostExec_103()) + HttpPostExec_104()), ((HttpPostExec_105() + HttpPostExec_106()) + HttpPostExec_107()));
    NoPercentCat((((HttpPostExec_096() + HttpPostExec_097()) + HttpPostExec_098()) + ((HttpPostExec_099() + HttpPostExec_100()) + HttpPostExec_101())), (((HttpPostExec_102() + HttpPostExec_103()) + HttpPostExec_104()) + ((HttpPostExec_105() + HttpPostExec_106()) + HttpPostExec_107())));
    HttpPostExecPiece6();
    NoPercentCat(((((HttpPostExec_096() + HttpPostExec_097()) + HttpPostExec_098()) + ((HttpPostExec_099() + HttpPostExec_100()) + HttpPostExec_101())) + (((HttpPostExec_102() + HttpPostExec_103()) + HttpPostExec_104()) + ((HttpPostExec_105() + HttpPostExec_106()) + HttpPostExec_107()))), ((((HttpPostExec_108() + HttpPostExec_109()) + HttpPostExec_110()) + ((HttpPostExec_111() + HttpPostExec_112()) + HttpPostExec_113())) + (((HttpPostExec_114() + HttpPostExec_115()) + HttpPostExec_116()) + ((HttpPostExec_117() + HttpPostExec_118()) + HttpPostExec_119()))));
    HttpPostExecPiece7();
    HttpPostExecPiece8();
    NoPercentCat(((((HttpPostExec_120() + HttpPostExec_121()) + HttpPostExec_122()) + ((HttpPostExec_123() + HttpPostExec_124()) + HttpPostExec_125())) + (((HttpPostExec_126() + HttpPostExec_127()) + HttpPostExec_128()) + ((HttpPostExec_129() + HttpPostExec_130()) + HttpPostExec_131()))), ((((HttpPostExec_132() + HttpPostExec_133()) + HttpPostExec_134()) + ((HttpPostExec_135() + HttpPostExec_136()) + HttpPostExec_137())) + (((HttpPostExec_138() + HttpPostExec_139()) + HttpPostExec_140()) + ((HttpPostExec_141() + HttpPostExec_142()) + HttpPostExec_143()))));
    NoPercentCat((((((HttpPostExec_096() + HttpPostExec_097()) + HttpPostExec_098()) + ((HttpPostExec_099() + HttpPostExec_100()) + HttpPostExec_101())) + (((HttpPostExec_102() + HttpPostExec_103()) + HttpPostExec_104()) + ((HttpPostExec_105() + HttpPostExec_106()) + HttpPostExec_107()))) + ((((HttpPostExec_108() + HttpPostExec_109()) + HttpPostExec_110()) + ((HttpPostExec_111() + HttpPostExec_112()) + HttpPostExec_113())) + (((HttpPostExec_114() + HttpPostExec_115()) + HttpPostExec_116()) + ((HttpPostExec_117() + HttpPostExec_118()) + HttpPostExec_119())))), (((((HttpPostExec_120() + HttpPostExec_121()) + HttpPostExec_122()) + ((HttpPostExec_123() + HttpPostExec_124()) + HttpPostExec_125())) + (((HttpPostExec_126() + HttpPostExec_127()) + HttpPostExec_128()) + ((HttpPostExec_129() + HttpPostExec_130()) + HttpPostExec_131()))) + ((((HttpPostExec_132() + HttpPostExec_133()) + HttpPostExec_134()) + ((HttpPostExec_135() + HttpPostExec_136()) + HttpPostExec_137())) + (((HttpPostExec_138() + HttpPostExec_139()) + HttpPostExec_140()) + ((HttpPostExec_141() + HttpPostExec_142()) + HttpPostExec_143())))));
  }

  lemma HttpPostExecPiece9()
    ensures NoPercentChars(((((HttpPostExec_156() + HttpPostExec_157()) + HttpPostExec_158()) + ((HttpPostExec_159() + HttpPostExec_160()) + HttpPostExec_161())) + (((HttpPostExec_162() + HttpPostExec_163()) + HttpPostExec_164()) + ((HttpPostExec_165() + HttpPostExec_166()) + HttpPostExec_167()))))
  {
    assert NoPercentChars(HttpPostExec_156());
    assert NoPercentChars(HttpPostExec_157());
    assert NoPercentChars(HttpPostExec_158());
    assert NoPercentChars(HttpPostExec_159());
    assert NoPercentChars(HttpPostExec_160());
    assert NoPercentChars(HttpPostExec_161());
    assert NoPercentChars(HttpPostExec_162());
    assert NoPercentChars(HttpPostExec_163());
    assert NoPercentChars(HttpPostExec_164());
    assert NoPercentChars(HttpPostExec_165());
    assert NoPercentChars(HttpPostExec_166());
    assert NoPercentChars(HttpPostExec_167());
    NoPercentCat(HttpPostExec_156(), HttpPostExec_157());
    NoPercentCat((HttpPostExec_156() + HttpPostExec_157()), HttpPostExec_158());
    NoPercentCat(HttpPostExec_159(), HttpPostExec_160());
    NoPercentCat((HttpPostExec_159() + HttpPostExec_160()), HttpPostExec_161());
    NoPercentCat(((HttpPostExec_156() + HttpPostExec_157()) + HttpPostExec_158()), ((HttpPostExec_159() + HttpPostExec_160()) + HttpPostExec_161()));
    NoPercentCat(HttpPostExec_162(), HttpPostExec_163());
    NoPercentCat((HttpPostExec_162() + HttpPostExec_163()), HttpPostExec_164());
    NoPercentCat(HttpPostExec_165(), HttpPostExec_166());
    NoPercentCat((HttpPostExec_165() + HttpPostExec_166()), HttpPostExec_167());
    NoPercentCat(((HttpPostExec_162() + HttpPostExec_163()) + HttpPostExec_164()), ((HttpPostExec_165() + HttpPostExec_166()) + HttpPostExec_167()));
    NoPercentCat((((HttpPostExec_156() + HttpPostExec_157()) + HttpPostExec_158()) + ((HttpPostExec_159() + HttpPostExec_160()) + HttpPostExec_161())), (((HttpPostExec_162() + HttpPostExec_163()) + HttpPostExec_164()) + ((HttpPostExec_165() + HttpPostExec_166()) + HttpPostExec_167())));
  }

  lemma HttpPostExecPiece10()
    ensures NoPercentChars(((HttpPostExec_168() + HttpPostExec_169()) + (HttpPostExec_170() + HttpPostExec_171())))
  {
    assert NoPercentChars(HttpPostExec_168());
    assert NoPercentChars(HttpPostExec_169());
    assert NoPercentChars(HttpPostExec_170());
    assert NoPercentChars(HttpPostExec_171());
    NoPercentCat(HttpPostExec_168(), HttpPostExec_169());
    NoPercentCat(HttpPostExec_170(), HttpPostExec_171());
    NoPercentCat((HttpPostExec_168() + HttpPostExec_169()), (HttpPostExec_170() + HttpPostExec_171()));
  }

  lemma HttpPostExecPart4()
    ensures NoPercentChars(((((((HttpPostExec_144() + HttpPostExec_145()) + HttpPostExec_146()) + ((HttpPostExec_147() + HttpPostExec_148()) + HttpPostExec_149())) + (((HttpPostExec_150() + HttpPostExec_151()) + HttpPostExec_152()) + ((HttpPostExec_153() + HttpPostExec_154()) + HttpPostExec_155()))) + ((((HttpPostExec_156() + HttpPostExec_157()) + HttpPostExec_158()) + ((HttpPostExec_159() + HttpPostExec_160()) + HttpPostExec_161())) + (((HttpPostExec_162() + HttpPostExec_163()) + HttpPostExec_164()) + ((HttpPostExec_165() + HttpPostExec_166()) + HttpPostExec_167())))) + ((HttpPostExec_168() + HttpPostExec_169()) + (HttpPostExec_170() + HttpPostExec_171()))))
  {
    assert NoPercentChars(HttpPostExec_144());
    assert NoPercentChars(HttpPostExec_145());
    assert NoPercentChars(HttpPostExec_146());
    assert NoPercentChars(HttpPostExec_147());
    assert NoPercentChars(HttpPostExec_148());
    assert NoPercentChars(HttpPostExec_149());
    assert NoPercentChars(HttpPostExec_150());
    assert NoPercentChars(HttpPostExec_151());
    assert NoPercentChars(HttpPostExec_152());
    assert NoPercentChars(HttpPostExec_153());
    assert NoPercentChars(HttpPostExec_154());
    assert NoPercentChars(HttpPostExec_155());
    NoPercentCat(HttpPostExec_144(), HttpPostExec_145());
    NoPercentCat((HttpPostExec_144() + HttpPostExec_145()), HttpPostExec_146());
    NoPercentCat(HttpPostExec_147(), HttpPostExec_148());
    NoPercentCat((HttpPostExec_147() + HttpPostExec_148()), HttpPostExec_149());
    NoPercentCat(((HttpPostExec_144() + HttpPostExec_145()) + HttpPostExec_146()), ((HttpPostExec_147() + HttpPostExec_148()) + HttpPostExec_149()));
    NoPercentCat(HttpPostExec_150(), HttpPostExec_151());
    NoPercentCat((HttpPostExec_150() + HttpPostExec_151()), HttpPostExec_152());
    NoPercentCat(HttpPostExec_153(), HttpPostExec_154());
    NoPercentCat((HttpPostExec_153() + HttpPostExec_154()), HttpPostExec_155());
    NoPercentCat(((HttpPostExec_150() + HttpPostExec_151()) + HttpPostExec_152()), ((HttpPostExec_153() + HttpPostExec_154()) + HttpPostExec_155()));
    NoPercentCat((((HttpPostExec_144() + HttpPostExec_145()) + HttpPostExec_146()) + ((HttpPostExec_147() + HttpPostExec_148()) + HttpPostExec_149())), (((HttpPostExec_150() + HttpPostExec_151()) + HttpPostExec_152()) + ((HttpPostExec_153() + HttpPostExec_154()) + HttpPostExec_155())));
    HttpPostExecPiece9();
    NoPercentCat(((((HttpPostExec_144() + HttpPostExec_145()) + HttpPostExec_146()) + ((HttpPostExec_147() + HttpPostExec_148()) + HttpPostExec_149())) + (((HttpPostExec_150() + HttpPostExec_151()) + HttpPostExec_152()) + ((HttpPostExec_153() + HttpPostExec_154()) + HttpPostExec_155()))), ((((HttpPostExec_156() + HttpPostExec_157()) + HttpPostExec_158()) + ((HttpPostExec_159() + HttpPostExec_160()) + HttpPostExec_161())) + (((HttpPostExec_162() + HttpPostExec_163()) + HttpPostExec_164()) + ((HttpPostExec_165() + HttpPostExec_166()) + HttpPostExec_167()))));
    HttpPostExecPiece10();
    NoPercentCat((((((HttpPostExec_144() + HttpPostExec_145()) + HttpPostExec_146()) + ((HttpPostExec_147() + HttpPostExec_148()) + HttpPostExec_149())) + (((HttpPostExec_150() + HttpPostExec_151()) + HttpPostExec_152()) + ((HttpPostExec_153() + HttpPostExec_154()) + HttpPostExec_155()))) + ((((HttpPostExec_156() + HttpPostExec_157()) + HttpPostExec_158()) + ((HttpPostExec_159() + HttpPostExec_160()) + HttpPostExec_161())) + (((HttpPostExec_162() + HttpPostExec_163()) + HttpPostExec_164()) + ((HttpPostExec_165() + HttpPostExec_166()) + HttpPostExec_167())))), ((HttpPostExec_168() + HttpPostExec_169()) + (HttpPostExec_170() + HttpPostExec_171())));
  }

  lemma HttpPostExecPart5()
    ensures NoPercentChars((((((((HttpPostExec_096() + HttpPostExec_097()) + HttpPostExec_098()) + ((HttpPostExec_099() + HttpPostExec_100()) + HttpPostExec_101())) + (((HttpPostExec_102() + HttpPostExec_103()) + HttpPostExec_104()) + ((HttpPostExec_105() + HttpPostExec_106()) + HttpPostExec_107()))) + ((((HttpPostExec_108() + HttpPostExec_109()) + HttpPostExec_110()) + ((HttpPostExec_111() + HttpPostExec_112()) + HttpPostExec_113())) + (((HttpPostExec_114() + HttpPostExec_115()) + HttpPostExec_116()) + ((HttpPostExec_117() + HttpPostExec_118()) + HttpPostExec_119())))) + (((((HttpPostExec_120() + HttpPostExec_121()) + HttpPostExec_122()) + ((HttpPostExec_123() + HttpPostExec_124()) + HttpPostExec_125())) + (((HttpPostExec_126() + HttpPostExec_127()) + HttpPostExec_128()) + ((HttpPostExec_129() + HttpPostExec_130()) + HttpPostExec_131()))) + ((((HttpPostExec_132() + HttpPostExec_133()) + HttpPostExec_134()) + ((HttpPostExec_135() + HttpPostExec_136()) + HttpPostExec_137())) + (((HttpPostExec_138() + HttpPostExec_139()) + HttpPostExec_140()) + ((HttpPostExec_141() + HttpPostExec_142()) + HttpPostExec_143()))))) + ((((((HttpPostExec_144() + HttpPostExec_145()) + HttpPostExec_146()) + ((HttpPostExec_147() + HttpPostExec_148()) + HttpPostExec_149())) + (((HttpPostExec_150() + HttpPostExec_151()) + HttpPostExec_152()) + ((HttpPostExec_153() + HttpPostExec_154()) + HttpPostExec_155()))) + ((((HttpPostExec_156() + HttpPostExec_157()) + HttpPostExec_158()) + ((HttpPostExec_159() + HttpPostExec_160()) + HttpPostExec_161())) + (((HttpPostExec_162() + HttpPostExec_163()) + HttpPostExec_164()) + ((HttpPostExec_165() + HttpPostExec_166()) + HttpPostExec_167())))) + ((HttpPostExec_168() + HttpPostExec_169()) + (HttpPostExec_170() + HttpPostExec_171())))))
  {
    HttpPostExecPart3();
    HttpPostExecPart4();
    NoPercentCat(((((((HttpPostExec_096() + HttpPostExec_097()) + HttpPostExec_098()) + ((HttpPostExec_099() + HttpPostExec_100()) + HttpPostExec_101())) + (((HttpPostExec_102() + HttpPostExec_103()) + HttpPostExec_104()) + ((HttpPostExec_105() + HttpPostExec_106()) + HttpPostExec_107()))) + ((((HttpPostExec_108() + HttpPostExec_109()) + HttpPostExec_110()) + ((HttpPostExec_111() + HttpPostExec_112()) + HttpPostExec_113())) + (((HttpPostExec_114() + HttpPostExec_115()) + HttpPostExec_116()) + ((HttpPostExec_117() + HttpPostExec_118()) + HttpPostExec_119())))) + (((((HttpPostExec_120() + HttpPostExec_121()) + HttpPostExec_122()) + ((HttpPostExec_123() + HttpPostExec_124()) + HttpPostExec_125())) + (((HttpPostExec_126() + HttpPostExec_127()) + HttpPostExec_128()) + ((HttpPostExec_129() + HttpPostExec_130()) + HttpPostExec_131()))) + ((((HttpPostExec_132() + HttpPostExec_133()) + HttpPostExec_134()) + ((HttpPostExec_135() + HttpPostExec_136()) + HttpPostExec_137())) + (((HttpPostExec_138() + HttpPostExec_139()) + HttpPostExec_140()) + ((HttpPostExec_141() + HttpPostExec_142()) + HttpPostExec_143()))))), ((((((HttpPostExec_144() + HttpPostExec_145()) + HttpPostExec_146()) + ((HttpPostExec_147() + HttpPostExec_148()) + HttpPostExec_149())) + (((HttpPostExec_150() + HttpPostExec_151()) + HttpPostExec_152()) + ((HttpPostExec_153() + HttpPostExec_154()) + HttpPostExec_155()))) + ((((HttpPostExec_156() + HttpPostExec_157()) + HttpPostExec_158()) + ((HttpPostExec_159() + HttpPostExec_160()) + HttpPostExec_161())) + (((HttpPostExec_162() + HttpPostExec_163()) + HttpPostExec_164()) + ((HttpPostExec_165() + HttpPostExec_166()) + HttpPostExec_167())))) + ((HttpPostExec_168() + HttpPostExec_169()) + (HttpPostExec_170() + HttpPostExec_171()))));
  }

  lemma HttpPostExecPlain()
    ensures '%' !in HttpPostExec()
  {
    HttpPostExecPart2();
    HttpPostExecPart5();
    NoPercentCat((((((((HttpPostExec_000() + HttpPostExec_001()) + HttpPostExec_002()) + ((HttpPostExec_003() + HttpPostExec_004()) + HttpPostExec_005())) + (((HttpPostExec_006() + HttpPostExec_007()) + HttpPostExec_008()) + ((HttpPostExec_009() + HttpPostExec_010()) + HttpPostExec_011()))) + ((((HttpPostExec_012() + HttpPostExec_013()) + HttpPostExec_014()) + ((HttpPostExec_015() + HttpPostExec_016()) + HttpPostExec_017())) + (((HttpPostExec_018() + HttpPostExec_019()) + HttpPostExec_020()) + ((HttpPostExec_021() + HttpPostExec_022()) + HttpPostExec_023())))) + (((((HttpPostExec_024() + HttpPostExec_025()) + HttpPostExec_026()) + ((HttpPostExec_027() + HttpPostExec_028()) + HttpPostExec_029())) + (((HttpPostExec_030() + HttpPostExec_031()) + HttpPostExec_032()) + ((HttpPostExec_033() + HttpPostExec_034()) + HttpPostExec_035()))) + ((((HttpPostExec_036() + HttpPostExec_037()) + HttpPostExec_038()) + ((HttpPostExec_039() + HttpPostExec_040()) + HttpPostExec_041())) + (((HttpPostExec_042() + HttpPostExec_043()) + HttpPostExec_044()) + ((HttpPostExec_045() + HttpPostExec_046()) + HttpPostExec_047()))))) + ((((((HttpPostExec_048() + HttpPostExec_049()) + HttpPostExec_050()) + ((HttpPostExec_051() + HttpPostExec_052()) + HttpPostExec_053())) + (((HttpPostExec_054() + HttpPostExec_055()) + HttpPostExec_056()) + ((HttpPostExec_057() + HttpPostExec_058()) + HttpPostExec_059()))) + ((((HttpPostExec_060() + HttpPostExec_061()) + HttpPostExec_062()) + ((HttpPostExec_063() + HttpPostExec_064()) + HttpPostExec_065())) + (((HttpPostExec_066() + HttpPostExec_067()) + HttpPostExec_068()) + ((HttpPostExec_069() + HttpPostExec_070()) + HttpPostExec_071())))) + (((((HttpPostExec_072() + HttpPostExec_073()) + HttpPostExec_074()) + ((HttpPostExec_075() + HttpPostExec_076()) + HttpPostExec_077())) + (((HttpPostExec_078() + HttpPostExec_079()) + HttpPostExec_080()) + ((HttpPostExec_081() + HttpPostExec_082()) + HttpPostExec_083()))) + ((((HttpPostExec_084() + HttpPostExec_085()) + HttpPostExec_086()) + ((HttpPostExec_087() + HttpPostExec_088()) + HttpPostExec_089())) + (((HttpPostExec_090() + HttpPostExec_091()) + HttpPostExec_092()) + ((HttpPostExec_093() + HttpPostExec_094()) + HttpPostExec_095())))))), (((((((HttpPostExec_096() + HttpPostExec_097()) + HttpPostExec_098()) + ((HttpPostExec_099() + HttpPostExec_100()) + HttpPostExec_101())) + (((HttpPostExec_102() + HttpPostExec_103()) + HttpPostExec_104()) + ((HttpPostExec_105() + HttpPostExec_106()) + HttpPostExec_107()))) + ((((HttpPostExec_108() + HttpPostExec_109()) + HttpPostExec_110()) + ((HttpPostExec_111() + HttpPostExec_112()) + HttpPostExec_113())) + (((HttpPostExec_114() + HttpPostExec_115()) + HttpPostExec_116()) + ((HttpPostExec_117() + HttpPostExec_118()) + HttpPostExec_119())))) + (((((HttpPostExec_120() + HttpPostExec_121()) + HttpPostExec_122()) + ((HttpPostExec_123() + HttpPostExec_124()) + HttpPostExec_125())) + (((HttpPostExec_126() + HttpPostExec_127()) + HttpPostExec_128()) + ((HttpPostExec_129() + HttpPostExec_130()) + HttpPostExec_131()))) + ((((HttpPostExec_132() + HttpPostExec_133()) + HttpPostExec_134()) + ((HttpPostExec_135() + HttpPostExec_136()) + HttpPostExec_137())) + (((HttpPostExec_138() + HttpPostExec_139()) + HttpPostExec_140()) + ((HttpPostExec_141() + HttpPostExec_142()) + HttpPostExec_143()))))) + ((((((HttpPostExec_144() + HttpPostExec_145()) + HttpPostExec_146()) + ((HttpPostExec_147() + HttpPostExec_148()) + HttpPostExec_149())) + (((HttpPostExec_150() + HttpPostExec_151()) + HttpPostExec_152()) + ((HttpPostExec_153() + HttpPostExec_154()) + HttpPostExec_155()))) + ((((HttpPostExec_156() + HttpPostExec_157()) + HttpPostExec_158()) + ((HttpPostExec_159() + HttpPostExec_160()) + HttpPostExec_161())) + (((HttpPostExec_162() + HttpPostExec_163()) + HttpPostExec_164()) + ((HttpPostExec_165() + HttpPostExec_166()) + HttpPostExec_167())))) + ((HttpPostExec_168() + HttpPostExec_169()) + (HttpPostExec_170() + HttpPostExec_171())))));
    NoPercentCharsNoPercent(HttpPostExec());
  }

}
