/**
 * The OpenTelemetry export builders of the script language:
 * `EndpointConfigConstructor`, `OTelSpanDefinition`, `OTelGaugeDefinition`,
 * `OTelSummaryDefinition` and `OTelMetricDefinition`, registered under the
 * op-ID constants `kOtelEndpointOpID`, `kSpanOpID`, `kGaugeOpID`,
 * `kSummaryOpID` and `kMetricOpID`. Each reads its named arguments,
 * fills an export payload with column names and scalar fields, and keeps
 * an ordered list of expected columns (source node, role, column name,
 * accepted types) for the later type check of the export sink.
 */
module OTel {
  import opened IRGraph
  import opened Status

  /** The column types an expected column may have. */
  datatype DataType = STRING | INT64 | FLOAT64 | TIME64NS

  /** The role an expected column plays; a quantile column is named after its quantile. */
  datatype Role = Role(name: string) | QuantileRole(quantile: real)

  datatype ExpectedColumn = ExpectedColumn(node: NodeId, role: Role, columnName: string, types: set<DataType>)

  /** One `key: value` attribute of an endpoint (connection metadata). */
  datatype ConnAttribute = ConnAttribute(name: string, value: string)

  /** The endpoint part of the export payload. */
  datatype EndpointConfigProto = EndpointConfigProto(url: string, attributes: map<string, string>)

  /** A span or metric attribute: its name and the column that holds its value. */
  datatype Attribute = Attribute(name: string, valueColumn: string)

  datatype Span = Span(name: string, spanIdColumn: string, parentSpanIdColumn: string, traceIdColumn: string,
                       statusColumn: string, startTimeUnixNanoColumn: string, endTimeUnixNanoColumn: string,
                       kind: int32, attributes: seq<Attribute>)

  datatype QuantileValue = QuantileValue(quantile: real, valueColumn: string)

  datatype MetricKind =
    | Gauge(valueColumn: string)
    | Summary(countColumn: string, sumColumn: string, quantileValues: seq<QuantileValue>)

  datatype Metric = Metric(name: string, description: string, startTimeUnixNanoColumn: string,
                           timeUnixNanoColumn: string, data: MetricKind, attributes: seq<Attribute>)

  datatype ExportData = SpanData(span: Span) | MetricExport(metric: Metric)

  /** The payload of the export sink operator. */
  datatype ExportSink = ExportSink(endpoint: EndpointConfigProto, data: ExportData)

  /** The script values the builders consume and produce. */
  datatype QLObject =
    | ExprObject(id: NodeId)
    | DictObject(keys: seq<QLObject>, values: seq<QLObject>)
    | EndpointConfig(url: string, attributes: seq<ConnAttribute>)
    | OTelMetricData(metric: Metric, columns: seq<ExpectedColumn>)
    | Exporter(sink: ExportSink, columns: seq<ExpectedColumn>)
    | NoneObject

  /** A dictionary holds as many values as keys (the builders assert this). */
  predicate WellFormedDict(obj: QLObject) {
    obj.DictObject? ==> |obj.keys| == |obj.values|
  }

  // ---------------------------------------------------------------------------
  // Argument access

  /** The object wraps a live node of the given kind. */
  predicate ObjectKindIs(nodes: map<NodeId, Node>, obj: QLObject, kind: Kind) {
    obj.ExprObject? && obj.id in nodes && KindOf(nodes[obj.id]) == kind
  }

  function StrOf(nodes: map<NodeId, Node>, obj: QLObject): string
    requires ObjectKindIs(nodes, obj, StringKind)
  {
    nodes[obj.id].str
  }

  /** `GetArgAs<T>`: the node an argument wraps, when it has the expected kind. */
  function GetArgAs(nodes: map<NodeId, Node>, obj: QLObject, argName: string, kind: Kind): (r: Result<NodeId>)
    ensures r.Ok? ==> r.value in nodes && KindOf(nodes[r.value]) == kind
    ensures r.Err? ==> r.error.ObjectError?
  {
    if obj.ExprObject? && obj.id in nodes && KindOf(nodes[obj.id]) == kind then Ok(obj.id)
    else Err(ObjectError(ArgWrongType(argName, kind)))
  }

  /** `GetArgAsString`: the value of a string argument. */
  function GetArgAsString(nodes: map<NodeId, Node>, args: map<string, QLObject>, argName: string): (r: Result<string>)
    requires argName in args
    ensures r.Ok? <==> StringArg(nodes, args, argName)
    ensures r.Ok? ==> r.value == ArgStr(nodes, args, argName)
  {
    var arg := GetArgAs(nodes, args[argName], argName, StringKind);
    if arg.Err? then Err(arg.error) else Ok(nodes[arg.value].str)
  }

  /** The named argument is a string. */
  predicate StringArg(nodes: map<NodeId, Node>, args: map<string, QLObject>, name: string) {
    name in args && ObjectKindIs(nodes, args[name], StringKind)
  }

  function ArgStr(nodes: map<NodeId, Node>, args: map<string, QLObject>, name: string): string
    requires StringArg(nodes, args, name)
  {
    nodes[args[name].id].str
  }

  /** The named arguments are all strings. */
  predicate StringArgs(nodes: map<NodeId, Node>, args: map<string, QLObject>, names: seq<string>) {
    forall i :: 0 <= i < |names| ==> StringArg(nodes, args, names[i])
  }

  /** The expected-column entry records the node and the column name of a string argument. */
  predicate ColumnFromArg(nodes: map<NodeId, Node>, args: map<string, QLObject>, c: ExpectedColumn, name: string) {
    StringArg(nodes, args, name) && c.node == args[name].id && c.columnName == ArgStr(nodes, args, name)
  }

  /** Every key has kind `keyKind` and every value kind `valueKind`. */
  predicate PairsOfKinds(nodes: map<NodeId, Node>, keys: seq<QLObject>, values: seq<QLObject>,
                         keyKind: Kind, valueKind: Kind)
    requires |keys| == |values|
  {
    forall i :: 0 <= i < |keys| ==> ObjectKindIs(nodes, keys[i], keyKind) && ObjectKindIs(nodes, values[i], valueKind)
  }

  /**
   * `e` is the diagnostic for the first dictionary entry of a wrong kind:
   * the key is checked before its value.
   */
  ghost predicate FirstBadPair(nodes: map<NodeId, Node>, keys: seq<QLObject>, values: seq<QLObject>,
                               keyKind: Kind, keyArg: string, valueKind: Kind, valueArg: string, e: Error)
    requires |keys| == |values|
  {
    exists i :: 0 <= i < |keys| && PairsOfKinds(nodes, keys[..i], values[..i], keyKind, valueKind)
                && if !ObjectKindIs(nodes, keys[i], keyKind) then e == ObjectError(ArgWrongType(keyArg, keyKind))
                   else !ObjectKindIs(nodes, values[i], valueKind) && e == ObjectError(ArgWrongType(valueArg, valueKind))
  }

  // ---------------------------------------------------------------------------
  // Endpoint

  /**
   * The endpoint attribute map: the attributes written in order, so a later
   * attribute overwrites an earlier one with the same name.
   */
  function AttrMap(attrs: seq<ConnAttribute>): map<string, string>
    decreases |attrs|
  {
    if attrs == [] then map[]
    else AttrMap(attrs[..|attrs| - 1])[attrs[|attrs| - 1].name := attrs[|attrs| - 1].value]
  }

  /** The index of the last attribute named `k`, or -1 when no attribute has that name. */
  function LastIndexOf(attrs: seq<ConnAttribute>, k: string): (i: int)
    ensures -1 <= i < |attrs|
    ensures i >= 0 ==> attrs[i].name == k
    ensures forall j :: i < j < |attrs| ==> attrs[j].name != k
    decreases |attrs|
  {
    if attrs == [] then -1
    else if attrs[|attrs| - 1].name == k then |attrs| - 1
    else LastIndexOf(attrs[..|attrs| - 1], k)
  }

  /**
   * Later attributes win: a name is in the endpoint map exactly when some
   * attribute has it, and it maps to the value of the last such attribute.
   */
  lemma {:induction false} AttrMapLastWins(attrs: seq<ConnAttribute>, k: string)
    ensures k in AttrMap(attrs) <==> LastIndexOf(attrs, k) >= 0
    ensures k in AttrMap(attrs) ==> AttrMap(attrs)[k] == attrs[LastIndexOf(attrs, k)].value
    decreases |attrs|
  {
    if attrs != [] {
      var n := |attrs| - 1;
      AttrMapLastWins(attrs[..n], k);
      if attrs[n].name != k {
        var i := LastIndexOf(attrs[..n], k);
        if i >= 0 {
          assert attrs[..n][i] == attrs[i];
        }
      }
    }
  }

  /** `EndpointConfig::ToProto`: the url and the attributes written into the map one by one. */
  method ToProto(endpoint: QLObject) returns (pb: EndpointConfigProto)
    requires endpoint.EndpointConfig?
    ensures pb.url == endpoint.url
    ensures pb.attributes == AttrMap(endpoint.attributes)
  {
    var attributes: map<string, string> := map[];
    var attrs := endpoint.attributes;
    for i := 0 to |attrs|
      invariant attributes == AttrMap(attrs[..i])
    {
      assert attrs[..i + 1][..i] == attrs[..i];
      attributes := attributes[attrs[i].name := attrs[i].value];
    }
    assert attrs[..|attrs|] == attrs;
    pb := EndpointConfigProto(endpoint.url, attributes);
  }

  /** `ParseEndpointConfig`: only an endpoint configuration is accepted. */
  method ParseEndpointConfig(endpoint: QLObject) returns (r: Result<EndpointConfigProto>)
    ensures r.Ok? <==> endpoint.EndpointConfig?
    ensures r.Err? ==> r.error == ObjectError(EndpointNotEndpointConfig)
    ensures r.Ok? ==> r.value.url == endpoint.url && r.value.attributes == AttrMap(endpoint.attributes)
  {
    if !endpoint.EndpointConfig? {
      return Err(ObjectError(EndpointNotEndpointConfig));
    }
    var pb := ToProto(endpoint);
    return Ok(pb);
  }

  /** `EndpointConfigConstructor`: the endpoint call, with arguments `url` and `attributes`. */
  method EndpointConfigConstructor(nodes: map<NodeId, Node>, args: map<string, QLObject>) returns (r: Result<QLObject>)
    requires "url" in args && "attributes" in args && WellFormedDict(args["attributes"])
    ensures var attr := args["attributes"];
            r.Ok? <==> && ObjectKindIs(nodes, args["url"], StringKind) && attr.DictObject?
                       && PairsOfKinds(nodes, attr.keys, attr.values, StringKind, StringKind)
    ensures !ObjectKindIs(nodes, args["url"], StringKind) ==> r == Err(ObjectError(ArgWrongType("url", StringKind)))
    ensures ObjectKindIs(nodes, args["url"], StringKind) && !args["attributes"].DictObject? ==>
              r == Err(ObjectError(EndpointAttributesNotDict))
    ensures var attr := args["attributes"];
            ObjectKindIs(nodes, args["url"], StringKind) && attr.DictObject? && r.Err? ==>
              FirstBadPair(nodes, attr.keys, attr.values, StringKind, "attribute key", StringKind, "attribute value", r.error)
    ensures var attr := args["attributes"];
            r.Ok? ==> && r.value.EndpointConfig? && r.value.url == StrOf(nodes, args["url"])
                      && |r.value.attributes| == |attr.keys|
                      && forall i :: 0 <= i < |attr.keys| ==>
                           r.value.attributes[i] == ConnAttribute(StrOf(nodes, attr.keys[i]), StrOf(nodes, attr.values[i]))
  {
    var url := GetArgAsString(nodes, args, "url");
    if url.Err? {
      return Err(url.error);
    }
    var attr := args["attributes"];
    if !attr.DictObject? {
      return Err(ObjectError(EndpointAttributesNotDict));
    }
    var attributes: seq<ConnAttribute> := [];
    for i := 0 to |attr.keys|
      invariant PairsOfKinds(nodes, attr.keys[..i], attr.values[..i], StringKind, StringKind)
      invariant |attributes| == i
      invariant forall k :: 0 <= k < i ==>
                  attributes[k] == ConnAttribute(StrOf(nodes, attr.keys[k]), StrOf(nodes, attr.values[k]))
    {
      var keyIr := GetArgAs(nodes, attr.keys[i], "attribute key", StringKind);
      if keyIr.Err? {
        return Err(keyIr.error);
      }
      var valIr := GetArgAs(nodes, attr.values[i], "attribute value", StringKind);
      if valIr.Err? {
        return Err(valIr.error);
      }
      attributes := attributes + [ConnAttribute(nodes[keyIr.value].str, nodes[valIr.value].str)];
    }
    assert attr.keys[..|attr.keys|] == attr.keys && attr.values[..|attr.values|] == attr.values;
    return Ok(EndpointConfig(url.value, attributes));
  }

  // ---------------------------------------------------------------------------
  // Attributes of spans and metrics

  /** The expected column of an attribute value: role "attribute", a string column. */
  predicate IsAttributeColumn(c: ExpectedColumn, a: Attribute) {
    c.role == Role("attribute") && c.columnName == a.valueColumn && c.types == {STRING}
  }

  /** `attrs` and `cols` are the attributes and expected columns made from the dictionary, pair by pair. */
  predicate AttributesFrom(nodes: map<NodeId, Node>, keys: seq<QLObject>, values: seq<QLObject>,
                           attrs: seq<Attribute>, cols: seq<ExpectedColumn>)
    requires |keys| == |values|
  {
    && PairsOfKinds(nodes, keys, values, StringKind, StringKind)
    && |attrs| == |keys| && |cols| == |keys|
    && forall i :: 0 <= i < |keys| ==>
         && attrs[i] == Attribute(StrOf(nodes, keys[i]), StrOf(nodes, values[i]))
         && cols[i] == ExpectedColumn(values[i].id, Role("attribute"), StrOf(nodes, values[i]), {STRING})
  }

  /** The attribute loop shared by the span and metric builders. */
  method ParseAttributes(nodes: map<NodeId, Node>, keys: seq<QLObject>, values: seq<QLObject>)
    returns (r: Result<(seq<Attribute>, seq<ExpectedColumn>)>)
    requires |keys| == |values|
    ensures r.Ok? <==> PairsOfKinds(nodes, keys, values, StringKind, StringKind)
    ensures r.Ok? ==> AttributesFrom(nodes, keys, values, r.value.0, r.value.1)
    ensures r.Err? ==> FirstBadPair(nodes, keys, values, StringKind, "attribute", StringKind, "attribute value column", r.error)
  {
    var attrs: seq<Attribute> := [];
    var columns: seq<ExpectedColumn> := [];
    for idx := 0 to |keys|
      invariant AttributesFrom(nodes, keys[..idx], values[..idx], attrs, columns)
    {
      var key := GetArgAs(nodes, keys[idx], "attribute", StringKind);
      if key.Err? {
        return Err(key.error);
      }
      var val := GetArgAs(nodes, values[idx], "attribute value column", StringKind);
      if val.Err? {
        return Err(val.error);
      }
      attrs := attrs + [Attribute(nodes[key.value].str, nodes[val.value].str)];
      columns := columns + [ExpectedColumn(val.value, Role("attribute"), nodes[val.value].str, {STRING})];
    }
    assert keys[..|keys|] == keys && values[..|values|] == values;
    return Ok((attrs, columns));
  }

  // ---------------------------------------------------------------------------
  // Span

  const SpanArgNames: set<string> :=
    {"endpoint", "name", "span_id", "parent_span_id", "trace_id", "status",
     "start_time_unix_nano", "end_time_unix_nano", "kind", "attributes"}

  /** The C++ `int` that the span-kind enumeration and its validity check take. */
  newtype int32 = x: int | -0x8000_0000 <= x < 0x8000_0000

  /**
   * The implicit conversion of an `int64_t` to `int`: the value modulo
   * 2^32, read as a two's-complement 32-bit number.
   */
  function Int32Of(v: int64): (r: int32)
    ensures (r as int - v as int) % 0x1_0000_0000 == 0
    ensures -0x8000_0000 <= v as int < 0x8000_0000 ==> r as int == v as int
  {
    var m := v as int % 0x1_0000_0000;
    if m < 0x8000_0000 then m as int32 else (m - 0x1_0000_0000) as int32
  }

  /** The values of the OpenTelemetry span-kind enumeration. */
  predicate IsValidSpanKind(k: int32) {
    0 <= k <= 5
  }

  /**
   * An integer literal is a valid span kind exactly when its low 32 bits
   * are 0 to 5; 2^32 + 2, say, is accepted as kind 2.
   */
  lemma {:induction false} SpanKindOfLiteral(v: int64)
    ensures IsValidSpanKind(Int32Of(v)) <==> 0 <= v as int % 0x1_0000_0000 <= 5
    ensures v as int == 0x1_0000_0002 ==> Int32Of(v) == 2
  {
    var m := v as int % 0x1_0000_0000;
    assert Int32Of(v) as int == if m < 0x8000_0000 then m else m - 0x1_0000_0000;
  }

  /** The column an expected-column entry names has the given role and types. */
  predicate ColumnIs(c: ExpectedColumn, role: string, columnName: string, types: set<DataType>) {
    c.role == Role(role) && c.columnName == columnName && c.types == types
  }

  /**
   * Every column name in the span payload equals the column name of its
   * expected-column entry: the six fixed columns in order, then one
   * string column per attribute.
   */
  predicate SpanColumnsAgree(span: Span, cols: seq<ExpectedColumn>) {
    && |cols| == 6 + |span.attributes|
    && ColumnIs(cols[0], "span_id", span.spanIdColumn, {STRING})
    && ColumnIs(cols[1], "parent_span_id", span.parentSpanIdColumn, {STRING})
    && ColumnIs(cols[2], "trace_id", span.traceIdColumn, {STRING})
    && ColumnIs(cols[3], "status", span.statusColumn, {INT64})
    && ColumnIs(cols[4], "start_time_unix_nano", span.startTimeUnixNanoColumn, {TIME64NS})
    && ColumnIs(cols[5], "end_time_unix_nano", span.endTimeUnixNanoColumn, {TIME64NS})
    && forall i :: 0 <= i < |span.attributes| ==> IsAttributeColumn(cols[6 + i], span.attributes[i])
  }

  /** The arguments `OTelSpanDefinition` accepts. */
  predicate SpanArgsValid(nodes: map<NodeId, Node>, args: map<string, QLObject>)
    requires SpanArgNames <= args.Keys && WellFormedDict(args["attributes"])
  {
    && args["endpoint"].EndpointConfig?
    && StringArg(nodes, args, "name") && StringArg(nodes, args, "span_id")
    && StringArg(nodes, args, "parent_span_id") && StringArg(nodes, args, "trace_id")
    && StringArg(nodes, args, "status") && StringArg(nodes, args, "start_time_unix_nano")
    && StringArg(nodes, args, "end_time_unix_nano")
    && ObjectKindIs(nodes, args["kind"], IntKind) && IsValidSpanKind(Int32Of(nodes[args["kind"].id].val))
    && args["attributes"].DictObject?
    && PairsOfKinds(nodes, args["attributes"].keys, args["attributes"].values, StringKind, StringKind)
  }

  /**
   * The diagnostic `OTelSpanDefinition` reports before it looks at the attribute
   * entries, in the order it checks its arguments; None when all of those
   * checks pass.
   */
  function SpanArgError(nodes: map<NodeId, Node>, args: map<string, QLObject>): Option<Error>
    requires SpanArgNames <= args.Keys
  {
    if !args["endpoint"].EndpointConfig? then Some(ObjectError(EndpointNotEndpointConfig))
    else if !StringArg(nodes, args, "name") then Some(ObjectError(ArgWrongType("name", StringKind)))
    else if !StringArg(nodes, args, "span_id") then Some(ObjectError(ArgWrongType("span_id", StringKind)))
    else if !StringArg(nodes, args, "parent_span_id") then Some(ObjectError(ArgWrongType("parent_span_id", StringKind)))
    else if !StringArg(nodes, args, "trace_id") then Some(ObjectError(ArgWrongType("trace_id", StringKind)))
    else if !StringArg(nodes, args, "status") then Some(ObjectError(ArgWrongType("status", StringKind)))
    else if !StringArg(nodes, args, "start_time_unix_nano") then
      Some(ObjectError(ArgWrongType("start_time_unix_nano", StringKind)))
    else if !StringArg(nodes, args, "end_time_unix_nano") then
      Some(ObjectError(ArgWrongType("end_time_unix_nano", StringKind)))
    else if !ObjectKindIs(nodes, args["kind"], IntKind) then Some(ObjectError(ArgWrongType("kind", IntKind)))
    else if !IsValidSpanKind(Int32Of(nodes[args["kind"].id].val)) then
      Some(NodeError(args["kind"].id, InvalidSpanKind(nodes[args["kind"].id].val)))
    else if !args["attributes"].DictObject? then Some(ObjectError(AttributesNotDict))
    else None
  }

  /**
   * `out` is the span exporter built from valid arguments: the endpoint
   * proto, the span's name and kind, and the expected columns, which agree
   * with the span's column names and record the argument nodes they come
   * from, the attribute columns last.
   */
  predicate SpanExported(nodes: map<NodeId, Node>, args: map<string, QLObject>, out: QLObject)
    requires SpanArgNames <= args.Keys && WellFormedDict(args["attributes"])
  {
    && SpanArgsValid(nodes, args)
    && out.Exporter? && out.sink.data.SpanData?
    && var endpoint, span, cols := args["endpoint"], out.sink.data.span, out.columns;
    && out.sink.endpoint == EndpointConfigProto(endpoint.url, AttrMap(endpoint.attributes))
    && span.name == ArgStr(nodes, args, "name")
    && span.kind == Int32Of(nodes[args["kind"].id].val)
    && SpanColumnsAgree(span, cols)
    && ColumnFromArg(nodes, args, cols[0], "span_id") && ColumnFromArg(nodes, args, cols[1], "parent_span_id")
    && ColumnFromArg(nodes, args, cols[2], "trace_id") && ColumnFromArg(nodes, args, cols[3], "status")
    && ColumnFromArg(nodes, args, cols[4], "start_time_unix_nano")
    && ColumnFromArg(nodes, args, cols[5], "end_time_unix_nano")
    && AttributesFrom(nodes, args["attributes"].keys, args["attributes"].values, span.attributes, cols[6..])
  }

  /** The exporter `OTelSpanDefinition` assembles from valid arguments satisfies `SpanExported`. */
  lemma SpanExportedIntro(nodes: map<NodeId, Node>, args: map<string, QLObject>, attrs: seq<Attribute>,
                          attrColumns: seq<ExpectedColumn>, out: QLObject)
    requires SpanArgNames <= args.Keys && WellFormedDict(args["attributes"]) && SpanArgsValid(nodes, args)
    requires AttributesFrom(nodes, args["attributes"].keys, args["attributes"].values, attrs, attrColumns)
    requires var span := Span(ArgStr(nodes, args, "name"), ArgStr(nodes, args, "span_id"),
                              ArgStr(nodes, args, "parent_span_id"), ArgStr(nodes, args, "trace_id"),
                              ArgStr(nodes, args, "status"), ArgStr(nodes, args, "start_time_unix_nano"),
                              ArgStr(nodes, args, "end_time_unix_nano"), Int32Of(nodes[args["kind"].id].val), attrs);
             var cols := [ExpectedColumn(args["span_id"].id, Role("span_id"), span.spanIdColumn, {STRING}),
                          ExpectedColumn(args["parent_span_id"].id, Role("parent_span_id"), span.parentSpanIdColumn, {STRING}),
                          ExpectedColumn(args["trace_id"].id, Role("trace_id"), span.traceIdColumn, {STRING}),
                          ExpectedColumn(args["status"].id, Role("status"), span.statusColumn, {INT64}),
                          ExpectedColumn(args["start_time_unix_nano"].id, Role("start_time_unix_nano"),
                                         span.startTimeUnixNanoColumn, {TIME64NS}),
                          ExpectedColumn(args["end_time_unix_nano"].id, Role("end_time_unix_nano"),
                                         span.endTimeUnixNanoColumn, {TIME64NS})];
             var endpoint := args["endpoint"];
             out == Exporter(ExportSink(EndpointConfigProto(endpoint.url, AttrMap(endpoint.attributes)), SpanData(span)),
                             cols + attrColumns)
    ensures SpanExported(nodes, args, out)
  {
    assert out.columns[6..] == attrColumns;
  }

  /** `OTelSpanDefinition`: the `Span(...)` call. */
  method OTelSpanDefinition(nodes: map<NodeId, Node>, args: map<string, QLObject>) returns (r: Result<QLObject>)
    requires SpanArgNames <= args.Keys && WellFormedDict(args["attributes"])
    ensures r.Ok? <==> SpanArgsValid(nodes, args)
    ensures SpanArgError(nodes, args).Some? ==> r == Err(SpanArgError(nodes, args).value)
    ensures var attr := args["attributes"];
            SpanArgError(nodes, args).None? && r.Err? ==>
              FirstBadPair(nodes, attr.keys, attr.values, StringKind, "attribute", StringKind, "attribute value column", r.error)
    ensures r.Ok? ==> SpanExported(nodes, args, r.value)
  {
    var endpointConfig := ParseEndpointConfig(args["endpoint"]);
    if endpointConfig.Err? {
      return Err(endpointConfig.error);
    }
    var name := GetArgAsString(nodes, args, "name");
    if name.Err? {
      return Err(name.error);
    }
    var columns: seq<ExpectedColumn> := [];
    var spanIdColumn := GetArgAs(nodes, args["span_id"], "span_id", StringKind);
    if spanIdColumn.Err? {
      return Err(spanIdColumn.error);
    }
    columns := columns + [ExpectedColumn(spanIdColumn.value, Role("span_id"), nodes[spanIdColumn.value].str, {STRING})];
    var parentSpanIdColumn := GetArgAs(nodes, args["parent_span_id"], "parent_span_id", StringKind);
    if parentSpanIdColumn.Err? {
      return Err(parentSpanIdColumn.error);
    }
    columns := columns + [ExpectedColumn(parentSpanIdColumn.value, Role("parent_span_id"),
                                         nodes[parentSpanIdColumn.value].str, {STRING})];
    var traceIdColumn := GetArgAs(nodes, args["trace_id"], "trace_id", StringKind);
    if traceIdColumn.Err? {
      return Err(traceIdColumn.error);
    }
    columns := columns + [ExpectedColumn(traceIdColumn.value, Role("trace_id"), nodes[traceIdColumn.value].str, {STRING})];
    var statusColumn := GetArgAs(nodes, args["status"], "status", StringKind);
    if statusColumn.Err? {
      return Err(statusColumn.error);
    }
    columns := columns + [ExpectedColumn(statusColumn.value, Role("status"), nodes[statusColumn.value].str, {INT64})];
    var startTimeColumn := GetArgAs(nodes, args["start_time_unix_nano"], "start_time_unix_nano", StringKind);
    if startTimeColumn.Err? {
      return Err(startTimeColumn.error);
    }
    columns := columns + [ExpectedColumn(startTimeColumn.value, Role("start_time_unix_nano"),
                                         nodes[startTimeColumn.value].str, {TIME64NS})];
    var endTimeColumn := GetArgAs(nodes, args["end_time_unix_nano"], "end_time_unix_nano", StringKind);
    if endTimeColumn.Err? {
      return Err(endTimeColumn.error);
    }
    columns := columns + [ExpectedColumn(endTimeColumn.value, Role("end_time_unix_nano"),
                                         nodes[endTimeColumn.value].str, {TIME64NS})];

    var kind := GetArgAs(nodes, args["kind"], "kind", IntKind);
    if kind.Err? {
      return Err(kind.error);
    }
    var kindValue := Int32Of(nodes[kind.value].val);
    if !IsValidSpanKind(kindValue) {
      return Err(NodeError(kind.value, InvalidSpanKind(nodes[kind.value].val)));
    }

    var attributes := args["attributes"];
    if !attributes.DictObject? {
      return Err(ObjectError(AttributesNotDict));
    }
    var parsed := ParseAttributes(nodes, attributes.keys, attributes.values);
    if parsed.Err? {
      return Err(parsed.error);
    }
    var (attrs, attrColumns) := parsed.value;
    var span := Span(name.value, nodes[spanIdColumn.value].str, nodes[parentSpanIdColumn.value].str,
                     nodes[traceIdColumn.value].str, nodes[statusColumn.value].str,
                     nodes[startTimeColumn.value].str, nodes[endTimeColumn.value].str, kindValue, attrs);
    columns := columns + attrColumns;
    SpanExportedIntro(nodes, args, attrs, attrColumns, Exporter(ExportSink(endpointConfig.value, SpanData(span)), columns));
    return Ok(Exporter(ExportSink(endpointConfig.value, SpanData(span)), columns));
  }

  // ---------------------------------------------------------------------------
  // Metrics

  /** The number of expected columns the metric data itself contributes. */
  function DataColumnCount(m: Metric): nat {
    match m.data
    case Gauge(_) => 3
    case Summary(_, _, qvs) => 4 + |qvs|
  }

  /**
   * Every column name in the metric payload equals the column name of its
   * expected-column entry: the value column of a gauge, or the count, sum
   * and quantile columns of a summary, then the two time columns, then one
   * string column per attribute.
   */
  predicate MetricColumnsAgree(m: Metric, cols: seq<ExpectedColumn>) {
    && |cols| == DataColumnCount(m) + |m.attributes|
    && (match m.data
        case Gauge(valueColumn) =>
          && ColumnIs(cols[0], "value", valueColumn, {INT64, FLOAT64})
          && ColumnIs(cols[1], "start_time_unix_nano", m.startTimeUnixNanoColumn, {TIME64NS})
          && ColumnIs(cols[2], "time_unix_nano", m.timeUnixNanoColumn, {TIME64NS})
        case Summary(countColumn, sumColumn, qvs) =>
          && ColumnIs(cols[0], "count", countColumn, {FLOAT64})
          && ColumnIs(cols[1], "sum", sumColumn, {FLOAT64})
          && (forall i :: 0 <= i < |qvs| ==>
                cols[2 + i].role == QuantileRole(qvs[i].quantile) && cols[2 + i].columnName == qvs[i].valueColumn
                && cols[2 + i].types == {FLOAT64})
          && ColumnIs(cols[2 + |qvs|], "start_time_unix_nano", m.startTimeUnixNanoColumn, {TIME64NS})
          && ColumnIs(cols[3 + |qvs|], "time_unix_nano", m.timeUnixNanoColumn, {TIME64NS}))
    && forall i :: 0 <= i < |m.attributes| ==> IsAttributeColumn(cols[DataColumnCount(m) + i], m.attributes[i])
  }

  const GaugeStringArgs: seq<string> := ["value", "start_time_unix_nano", "time_unix_nano"]

  /** `OTelGaugeDefinition`: the gauge call of the metrics module. */
  method OTelGaugeDefinition(nodes: map<NodeId, Node>, args: map<string, QLObject>) returns (r: Result<QLObject>)
    requires {"value", "start_time_unix_nano", "time_unix_nano"} <= args.Keys
    ensures r.Ok? <==> StringArg(nodes, args, "value") && StringArg(nodes, args, "start_time_unix_nano")
                       && StringArg(nodes, args, "time_unix_nano")
    ensures forall i :: 0 <= i < |GaugeStringArgs| && StringArgs(nodes, args, GaugeStringArgs[..i])
                        && !ObjectKindIs(nodes, args[GaugeStringArgs[i]], StringKind) ==>
              r == Err(ObjectError(ArgWrongType(GaugeStringArgs[i], StringKind)))
    ensures r.Ok? ==>
              && r.value.OTelMetricData?
              && r.value.metric == Metric("", "", ArgStr(nodes, args, "start_time_unix_nano"),
                                          ArgStr(nodes, args, "time_unix_nano"), Gauge(ArgStr(nodes, args, "value")), [])
              && MetricColumnsAgree(r.value.metric, r.value.columns)
              && ColumnFromArg(nodes, args, r.value.columns[0], "value")
              && ColumnFromArg(nodes, args, r.value.columns[1], "start_time_unix_nano")
              && ColumnFromArg(nodes, args, r.value.columns[2], "time_unix_nano")
  {
    assert GaugeStringArgs[0] == "value" && GaugeStringArgs[1] == "start_time_unix_nano" && GaugeStringArgs[2] == "time_unix_nano";
    var columns: seq<ExpectedColumn> := [];
    assert StringArgs(nodes, args, GaugeStringArgs[..0]);
    var valueColumn := GetArgAs(nodes, args["value"], "value", StringKind);
    if valueColumn.Err? {
      return Err(valueColumn.error);
    }
    columns := columns + [ExpectedColumn(valueColumn.value, Role("value"), nodes[valueColumn.value].str, {INT64, FLOAT64})];
    assert StringArgs(nodes, args, GaugeStringArgs[..1]);
    var startTimeColumn := GetArgAs(nodes, args["start_time_unix_nano"], "start_time_unix_nano", StringKind);
    if startTimeColumn.Err? {
      return Err(startTimeColumn.error);
    }
    columns := columns + [ExpectedColumn(startTimeColumn.value, Role("start_time_unix_nano"),
                                         nodes[startTimeColumn.value].str, {TIME64NS})];
    assert StringArgs(nodes, args, GaugeStringArgs[..2]);
    var timeColumn := GetArgAs(nodes, args["time_unix_nano"], "time_unix_nano", StringKind);
    if timeColumn.Err? {
      return Err(timeColumn.error);
    }
    columns := columns + [ExpectedColumn(timeColumn.value, Role("time_unix_nano"), nodes[timeColumn.value].str, {TIME64NS})];
    assert GaugeStringArgs[..3] == GaugeStringArgs;
    var metric := Metric("", "", nodes[startTimeColumn.value].str, nodes[timeColumn.value].str,
                         Gauge(nodes[valueColumn.value].str), []);
    return Ok(OTelMetricData(metric, columns));
  }

  const SummaryArgNames: set<string> := {"count", "sum", "quantile_values", "start_time_unix_nano", "time_unix_nano"}

  /** The arguments `OTelSummaryDefinition` accepts. */
  predicate SummaryArgsValid(nodes: map<NodeId, Node>, args: map<string, QLObject>)
    requires SummaryArgNames <= args.Keys && WellFormedDict(args["quantile_values"])
  {
    var qvs := args["quantile_values"];
    && StringArg(nodes, args, "count") && StringArg(nodes, args, "sum") && qvs.DictObject?
    && PairsOfKinds(nodes, qvs.keys, qvs.values, FloatKind, StringKind)
    && StringArg(nodes, args, "start_time_unix_nano") && StringArg(nodes, args, "time_unix_nano")
  }

  /**
   * `out` is the summary built from valid arguments: no name, description
   * or attributes yet, the count, sum and time columns named by their
   * arguments, one quantile value per dictionary entry in order, and
   * expected columns that agree with the metric and record the argument
   * nodes they come from.
   */
  predicate SummaryBuilt(nodes: map<NodeId, Node>, args: map<string, QLObject>, out: QLObject)
    requires SummaryArgNames <= args.Keys && WellFormedDict(args["quantile_values"])
  {
    && SummaryArgsValid(nodes, args)
    && out.OTelMetricData?
    && var qvs, m, cols := args["quantile_values"], out.metric, out.columns;
    && m.data.Summary?
    && m.name == "" && m.description == "" && m.attributes == []
    && MetricColumnsAgree(m, cols)
    && m.data.countColumn == ArgStr(nodes, args, "count") && m.data.sumColumn == ArgStr(nodes, args, "sum")
    && m.startTimeUnixNanoColumn == ArgStr(nodes, args, "start_time_unix_nano")
    && m.timeUnixNanoColumn == ArgStr(nodes, args, "time_unix_nano")
    && |m.data.quantileValues| == |qvs.keys|
    && (forall i :: 0 <= i < |qvs.keys| ==>
          && m.data.quantileValues[i] == QuantileValue(nodes[qvs.keys[i].id].fval, StrOf(nodes, qvs.values[i]))
          && cols[2 + i].node == qvs.values[i].id)
    && ColumnFromArg(nodes, args, cols[0], "count") && ColumnFromArg(nodes, args, cols[1], "sum")
    && ColumnFromArg(nodes, args, cols[2 + |qvs.keys|], "start_time_unix_nano")
    && ColumnFromArg(nodes, args, cols[3 + |qvs.keys|], "time_unix_nano")
  }

  /** The metric data `OTelSummaryDefinition` assembles from valid arguments satisfies `SummaryBuilt`. */
  lemma SummaryBuiltIntro(nodes: map<NodeId, Node>, args: map<string, QLObject>,
                          quantileValues: seq<QuantileValue>, cols: seq<ExpectedColumn>, out: QLObject)
    requires SummaryArgNames <= args.Keys && WellFormedDict(args["quantile_values"]) && SummaryArgsValid(nodes, args)
    requires var qvs := args["quantile_values"];
             && |quantileValues| == |qvs.keys| && |cols| == 4 + |qvs.keys|
             && cols[0] == ExpectedColumn(args["count"].id, Role("count"), ArgStr(nodes, args, "count"), {FLOAT64})
             && cols[1] == ExpectedColumn(args["sum"].id, Role("sum"), ArgStr(nodes, args, "sum"), {FLOAT64})
             && (forall i :: 0 <= i < |qvs.keys| ==>
                   && quantileValues[i] == QuantileValue(nodes[qvs.keys[i].id].fval, StrOf(nodes, qvs.values[i]))
                   && cols[2 + i] == ExpectedColumn(qvs.values[i].id, QuantileRole(quantileValues[i].quantile),
                                                    quantileValues[i].valueColumn, {FLOAT64}))
             && cols[2 + |qvs.keys|] == ExpectedColumn(args["start_time_unix_nano"].id, Role("start_time_unix_nano"),
                                                       ArgStr(nodes, args, "start_time_unix_nano"), {TIME64NS})
             && cols[3 + |qvs.keys|] == ExpectedColumn(args["time_unix_nano"].id, Role("time_unix_nano"),
                                                       ArgStr(nodes, args, "time_unix_nano"), {TIME64NS})
    requires out == OTelMetricData(Metric("", "", ArgStr(nodes, args, "start_time_unix_nano"),
                                          ArgStr(nodes, args, "time_unix_nano"),
                                          Summary(ArgStr(nodes, args, "count"), ArgStr(nodes, args, "sum"), quantileValues),
                                          []), cols)
    ensures SummaryBuilt(nodes, args, out)
  {
  }

  /** `OTelSummaryDefinition`: the summary call of the metrics module. */
  method OTelSummaryDefinition(nodes: map<NodeId, Node>, args: map<string, QLObject>) returns (r: Result<QLObject>)
    requires SummaryArgNames <= args.Keys && WellFormedDict(args["quantile_values"])
    ensures r.Ok? <==> SummaryArgsValid(nodes, args)
    ensures !ObjectKindIs(nodes, args["count"], StringKind) ==> r == Err(ObjectError(ArgWrongType("count", StringKind)))
    ensures StringArg(nodes, args, "count") && !ObjectKindIs(nodes, args["sum"], StringKind) ==>
              r == Err(ObjectError(ArgWrongType("sum", StringKind)))
    ensures StringArg(nodes, args, "count") && StringArg(nodes, args, "sum") && !args["quantile_values"].DictObject? ==>
              r == Err(ObjectError(QuantileValuesNotDict))
    ensures var qvs := args["quantile_values"];
            StringArg(nodes, args, "count") && StringArg(nodes, args, "sum") && qvs.DictObject?
            && !PairsOfKinds(nodes, qvs.keys, qvs.values, FloatKind, StringKind) ==>
              r.Err? && FirstBadPair(nodes, qvs.keys, qvs.values, FloatKind, "quantile", StringKind, "quantile value column", r.error)
    ensures var qvs := args["quantile_values"];
            StringArg(nodes, args, "count") && StringArg(nodes, args, "sum") && qvs.DictObject?
            && PairsOfKinds(nodes, qvs.keys, qvs.values, FloatKind, StringKind) ==>
              && (!ObjectKindIs(nodes, args["start_time_unix_nano"], StringKind) ==>
                    r == Err(ObjectError(ArgWrongType("start_time_unix_nano", StringKind))))
              && (ObjectKindIs(nodes, args["start_time_unix_nano"], StringKind)
                  && !ObjectKindIs(nodes, args["time_unix_nano"], StringKind) ==>
                    r == Err(ObjectError(ArgWrongType("time_unix_nano", StringKind))))
    ensures r.Ok? ==> SummaryBuilt(nodes, args, r.value)
  {
    var columns: seq<ExpectedColumn> := [];
    var countColumn := GetArgAs(nodes, args["count"], "count", StringKind);
    if countColumn.Err? {
      return Err(countColumn.error);
    }
    columns := columns + [ExpectedColumn(countColumn.value, Role("count"), nodes[countColumn.value].str, {FLOAT64})];
    var sumColumn := GetArgAs(nodes, args["sum"], "sum", StringKind);
    if sumColumn.Err? {
      return Err(sumColumn.error);
    }
    columns := columns + [ExpectedColumn(sumColumn.value, Role("sum"), nodes[sumColumn.value].str, {FLOAT64})];

    var qvs := args["quantile_values"];
    if !qvs.DictObject? {
      return Err(ObjectError(QuantileValuesNotDict));
    }
    var keys, values := qvs.keys, qvs.values;
    var quantileValues: seq<QuantileValue> := [];
    for idx := 0 to |keys|
      invariant PairsOfKinds(nodes, keys[..idx], values[..idx], FloatKind, StringKind)
      invariant |quantileValues| == idx && |columns| == 2 + idx
      invariant ColumnIs(columns[0], "count", nodes[countColumn.value].str, {FLOAT64}) && columns[0].node == countColumn.value
      invariant ColumnIs(columns[1], "sum", nodes[sumColumn.value].str, {FLOAT64}) && columns[1].node == sumColumn.value
      invariant forall i :: 0 <= i < idx ==>
                  && quantileValues[i] == QuantileValue(nodes[keys[i].id].fval, StrOf(nodes, values[i]))
                  && columns[2 + i] == ExpectedColumn(values[i].id, QuantileRole(quantileValues[i].quantile),
                                                       quantileValues[i].valueColumn, {FLOAT64})
    {
      var key := GetArgAs(nodes, keys[idx], "quantile", FloatKind);
      if key.Err? {
        assert FirstBadPair(nodes, keys, values, FloatKind, "quantile", StringKind, "quantile value column", key.error);
        return Err(key.error);
      }
      var val := GetArgAs(nodes, values[idx], "quantile value column", StringKind);
      if val.Err? {
        assert FirstBadPair(nodes, keys, values, FloatKind, "quantile", StringKind, "quantile value column", val.error);
        return Err(val.error);
      }
      var qv := QuantileValue(nodes[key.value].fval, nodes[val.value].str);
      quantileValues := quantileValues + [qv];
      columns := columns + [ExpectedColumn(val.value, QuantileRole(qv.quantile), qv.valueColumn, {FLOAT64})];
    }
    assert keys[..|keys|] == keys && values[..|values|] == values;

    var startTimeColumn := GetArgAs(nodes, args["start_time_unix_nano"], "start_time_unix_nano", StringKind);
    if startTimeColumn.Err? {
      return Err(startTimeColumn.error);
    }
    columns := columns + [ExpectedColumn(startTimeColumn.value, Role("start_time_unix_nano"),
                                         nodes[startTimeColumn.value].str, {TIME64NS})];
    var timeColumn := GetArgAs(nodes, args["time_unix_nano"], "time_unix_nano", StringKind);
    if timeColumn.Err? {
      return Err(timeColumn.error);
    }
    columns := columns + [ExpectedColumn(timeColumn.value, Role("time_unix_nano"), nodes[timeColumn.value].str, {TIME64NS})];
    var metric := Metric("", "", nodes[startTimeColumn.value].str, nodes[timeColumn.value].str,
                         Summary(nodes[countColumn.value].str, nodes[sumColumn.value].str, quantileValues), []);
    SummaryBuiltIntro(nodes, args, quantileValues, columns, OTelMetricData(metric, columns));
    return Ok(OTelMetricData(metric, columns));
  }

  const MetricArgNames: set<string> := {"data", "endpoint", "name", "description", "attributes"}

  /**
   * The diagnostic `OTelMetricDefinition` reports before it looks at the attribute
   * entries, in the order it checks its arguments; None when all of those
   * checks pass.
   */
  function MetricArgError(nodes: map<NodeId, Node>, args: map<string, QLObject>): (e: Option<Error>)
    requires MetricArgNames <= args.Keys
    ensures e.None? <==> && args["data"].OTelMetricData? && args["endpoint"].EndpointConfig?
                         && StringArg(nodes, args, "name") && StringArg(nodes, args, "description")
                         && args["attributes"].DictObject?
  {
    if !args["data"].OTelMetricData? then Some(ObjectError(DataNotMetricData))
    else if !args["endpoint"].EndpointConfig? then Some(ObjectError(EndpointNotEndpointConfig))
    else if !StringArg(nodes, args, "name") then Some(ObjectError(ArgWrongType("name", StringKind)))
    else if !StringArg(nodes, args, "description") then Some(ObjectError(ArgWrongType("description", StringKind)))
    else if !args["attributes"].DictObject? then Some(ObjectError(AttributesNotDict))
    else None
  }

  /** `OTelMetricDefinition`: the metric call that turns a gauge or summary into an exporter. */
  method OTelMetricDefinition(nodes: map<NodeId, Node>, args: map<string, QLObject>) returns (r: Result<QLObject>)
    requires MetricArgNames <= args.Keys && WellFormedDict(args["attributes"])
    ensures var data, attr := args["data"], args["attributes"];
            r.Ok? <==> && MetricArgError(nodes, args).None?
                       && PairsOfKinds(nodes, attr.keys, attr.values, StringKind, StringKind)
    ensures MetricArgError(nodes, args).Some? ==> r == Err(MetricArgError(nodes, args).value)
    ensures var attr := args["attributes"];
            MetricArgError(nodes, args).None? && r.Err? ==>
              FirstBadPair(nodes, attr.keys, attr.values, StringKind, "attribute", StringKind, "attribute value column", r.error)
    ensures r.Ok? ==>
              && r.value.Exporter? && r.value.sink.data.MetricExport?
              && var data, endpoint, attr := args["data"], args["endpoint"], args["attributes"];
              && r.value.sink.endpoint == EndpointConfigProto(endpoint.url, AttrMap(endpoint.attributes))
              && exists attrs, attrColumns ::
                   && AttributesFrom(nodes, attr.keys, attr.values, attrs, attrColumns)
                   && r.value.sink.data.metric == WithNameAndAttributes(data.metric, ArgStr(nodes, args, "name"),
                                                                        ArgStr(nodes, args, "description"), attrs)
                   && r.value.columns == data.columns + attrColumns
    ensures r.Ok? && MetricColumnsAgree(args["data"].metric, args["data"].columns) ==>
              MetricColumnsAgree(r.value.sink.data.metric, r.value.columns)
  {
    var data := args["data"];
    if !data.OTelMetricData? {
      return Err(ObjectError(DataNotMetricData));
    }
    var metric := data.metric;
    var columns := data.columns;
    var endpointConfig := ParseEndpointConfig(args["endpoint"]);
    if endpointConfig.Err? {
      return Err(endpointConfig.error);
    }
    var name := GetArgAsString(nodes, args, "name");
    if name.Err? {
      return Err(name.error);
    }
    var description := GetArgAsString(nodes, args, "description");
    if description.Err? {
      return Err(description.error);
    }
    metric := metric.(name := name.value, description := description.value);

    var attributes := args["attributes"];
    if !attributes.DictObject? {
      return Err(ObjectError(AttributesNotDict));
    }
    var parsed := ParseAttributes(nodes, attributes.keys, attributes.values);
    if parsed.Err? {
      return Err(parsed.error);
    }
    var (attrs, attrColumns) := parsed.value;
    metric := metric.(attributes := metric.attributes + attrs);
    columns := columns + attrColumns;
    if MetricColumnsAgree(data.metric, data.columns) {
      AppendedAttributesAgree(data.metric, data.columns, name.value, description.value, attrs, attrColumns);
    }
    return Ok(Exporter(ExportSink(endpointConfig.value, MetricExport(metric)), columns));
  }

  /** The metric renamed and described, with `attrs` appended to its attributes. */
  function WithNameAndAttributes(m: Metric, name: string, description: string, attrs: seq<Attribute>): Metric {
    m.(name := name, description := description, attributes := m.attributes + attrs)
  }

  /**
   * Renaming a metric and appending attributes, with one attribute column
   * appended per attribute, keeps its payload and expected columns in agreement.
   */
  lemma AppendedAttributesAgree(m: Metric, cols: seq<ExpectedColumn>, name: string, description: string,
                                attrs: seq<Attribute>, attrColumns: seq<ExpectedColumn>)
    requires MetricColumnsAgree(m, cols)
    requires |attrColumns| == |attrs| && forall i :: 0 <= i < |attrs| ==> IsAttributeColumn(attrColumns[i], attrs[i])
    ensures MetricColumnsAgree(WithNameAndAttributes(m, name, description, attrs), cols + attrColumns)
  {
    var m', cols' := WithNameAndAttributes(m, name, description, attrs), cols + attrColumns;
    var n := DataColumnCount(m);
    assert DataColumnCount(m') == n;
    forall i | 0 <= i < |m'.attributes| ensures IsAttributeColumn(cols'[n + i], m'.attributes[i]) {
      if i >= |m.attributes| {
        assert cols'[n + i] == attrColumns[i - |m.attributes|];
      }
    }
  }
}
