# Dataframe handlers and OpenTelemetry export builders, in Dafny

This project models two groups of operation handlers of a dataframe query
compiler and proves what they promise.

- **Dataframe method handlers** (`dataframe.dfy`). These are `merge` (Join),
  `agg` (BlockingAgg), `drop`, `head` (Limit), `__getitem__` (Map or
  Filter), `groupby`, and Range.
  - Each handler classifies its argument nodes by kind and reports a
    diagnostic on the first argument of the wrong kind.
  - On success it adds Column nodes and one operator node to the IR graph.
  - It deletes the literal nodes it consumed: the name tuple in `agg`, the
    list and its strings in `drop`, the integer in `head`.
  - It wraps the new operator in a Dataframe.
  - The graph is an `IR` object (`ir.dfy`) whose `nodes` map the handlers
    change in place through `CreateNode`, `DeleteNode`,
    `DeleteNodeAndChildren` and `AddArg`.
- **OpenTelemetry export builders** (`otel.dfy`). These are the C++
  functions `EndpointConfigConstructor`, `OTelSpanDefinition`,
  `OTelGaugeDefinition`, `OTelSummaryDefinition` and `OTelMetricDefinition`,
  which the script language exposes under the op-ID constants
  `kOtelEndpointOpID`, `kSpanOpID`, `kGaugeOpID`, `kSummaryOpID` and
  `kMetricOpID`. The values of those constants are not part of this model.
  - Each reads its named arguments and fills an export payload with column
    names and scalar fields.
  - Alongside, it builds an ordered list of expected columns. Each entry
    records the source node, the role, the column name and the accepted
    type set.
  - Dictionary arguments are walked pair by pair.
  - The endpoint attributes are written into a map, so the last attribute
    with a given name wins.

Diagnostics (`status.dfy`) are values: a `Reason` attached to an IR node
(`NodeError`) or to the script object or call (`ObjectError`). The message
text is not modelled.

## Model

| member | source | states |
|---|---|---|
| IRGraph.IR.CreateNode | src/carnot/compiler/objects/dataframe.cc:128-130 | The node is stored under an ID never handed out before, and every other node is unchanged. |
| IRGraph.IR.DeleteNode | src/carnot/compiler/objects/dataframe.cc:256 | Exactly the given node leaves the graph. |
| IRGraph.IR.DeleteNodeAndChildren | src/carnot/compiler/objects/dataframe.cc:220 | The graph becomes `DeleteTree` of the node: it loses the node and, transitively, the expressions it owns. |
| IRGraph.IR.AddArg | src/carnot/compiler/objects/dataframe.cc:201 | The function node gets the argument appended to its argument list. Nothing else changes. |
| IRGraph.DeleteTree | src/carnot/compiler/objects/dataframe.cc:220 | Deletion only removes nodes, never changes a surviving node, and removes every node it was asked to delete. |
| IRGraph.DeleteTreeClosed | src/carnot/compiler/objects/dataframe.cc:220 | No deleted node leaves a surviving child: the children of a deleted node are deleted too. |
| IRGraph.DeleteTreeOfLeaves | src/carnot/compiler/objects/dataframe.cc:220 | Deleting nodes that own nothing removes exactly those nodes. |
| IRGraph.DeleteListOfStrings | src/carnot/compiler/objects/dataframe.cc:216-220 | Deleting a list of strings with its children removes exactly the list node and its string elements. |
| IRGraph.MatchStable | src/carnot/compiler/objects/dataframe.cc:110-122 | Adding nodes does not change how an argument node matches (label, collection of strings) or the names it stands for. So `right_on` and `suffixes` are judged as they were before `left_on` created its Columns. |
| DataframeHandlers.ParseStringsFromCollection | src/carnot/compiler/objects/dataframe.cc:121-122 | Succeeds exactly when every element is a string, and then returns their values in order. Otherwise it reports the first non-string element. |
| DataframeHandlers.JoinEval | src/carnot/compiler/objects/dataframe.cc:90-132 | Fails exactly when `JoinError` reports, with that diagnostic. The checks run in source order: `right` operator, `how` string, `left_on` and `right_on` labels, `suffixes` a collection of strings, exactly 2 of them. On success (`JoinBuilt`) the Join's parents are `[df.op, right]` in that order, it carries `how` and the two suffixes, and it refers to fresh Columns for the left keys at parent index 0 and the right keys at parent index 1. No other node is added and no existing node changes. |
| DataframeHandlers.JoinBuiltIntro | src/carnot/compiler/objects/dataframe.cc:110-130 | Left-key Columns, then right-key Columns, then the Join node over both, built on accepted arguments: that is `JoinBuilt`. |
| DataframeHandlers.ProcessCols | src/carnot/compiler/objects/dataframe.cc:134-155 | Succeeds exactly on a string or a list of strings. A string becomes one Column. A list becomes one fresh Column per element, in list order. Every Column carries the given parent index and no other node is added. Any other kind reports "label or list of labels" for the argument and leaves the graph unchanged. |
| DataframeHandlers.ParseNameTuple | src/carnot/compiler/objects/dataframe.cc:177-206 | Fails, with the graph unchanged, when the first element is not a string, the second is not a Func, or the Func already has arguments. Checks run in that order. Otherwise it returns the Func, which now has exactly one argument: a new Column named by the string at parent index 0. The tuple node is gone, and nothing else changes (`Splice`). |
| DataframeHandlers.DesugaredEffect | src/carnot/compiler/objects/dataframe.cc:161-169 | After all keyword tuples are desugared in order, for every keyword: its tuple is gone, its own Column carries its name at parent index 0, and its Func has that Column as its only argument. |
| DataframeHandlers.DesugaredFrame | src/carnot/compiler/objects/dataframe.cc:161-169 | After desugaring, the graph has exactly the old nodes minus the keyword tuples, plus the new Columns. Every node that is neither a keyword tuple nor a tuple's function is unchanged. |
| DataframeHandlers.AggKwargIntact | src/carnot/compiler/objects/dataframe.cc:161-167 | Desugaring earlier keywords leaves a later keyword's value in the graph with its kind, and a later tuple and its function untouched. Its name element is still there: either untouched, or an earlier keyword's function, which is a Func before and after. So the later keyword gets the same verdict it would have got on the original graph, and a valid one reads the same name. |
| DataframeHandlers.AggAdvance | src/carnot/compiler/objects/dataframe.cc:166-168 | Desugaring the next keyword with a fresh Column extends the desugared prefix by one keyword. |
| DataframeHandlers.AggBuiltIntro | src/carnot/compiler/objects/dataframe.cc:171-173 | The BlockingAgg node over the fully desugared graph satisfies `AggBuilt`. |
| DataframeHandlers.AggSharedNonTuple | src/carnot/compiler/objects/dataframe.cc:161-165 | Two keywords may share one value that is not a tuple. That meets the `agg` precondition, and `agg` rejects it. |
| DataframeHandlers.AggFunctionAsValue | src/carnot/compiler/objects/dataframe.cc:161-165 | A later keyword's value may be an earlier keyword's function. That meets the `agg` precondition, and `agg` rejects the value as not a tuple. |
| DataframeHandlers.AggSharedNameString | src/carnot/compiler/objects/dataframe.cc:181-191 | Two keywords whose tuples share one name string, with distinct tuples and functions, meet the `agg` precondition. The string is only read, never changed or deleted. |
| DataframeHandlers.AggEval | src/carnot/compiler/objects/dataframe.cc:157-175 | Succeeds exactly when every keyword value is a well-formed name tuple. Otherwise it fails with the diagnostic of the first keyword that is not: not a tuple, then the `ParseNameTuple` checks. On success (`AggBuilt`) the BlockingAgg has parent `[df.op]`, no groups, and one aggregate expression per keyword in keyword order, each naming the keyword and pointing at its tuple's Func. The graph is the desugared graph plus that node. |
| DataframeHandlers.DropEval | src/carnot/compiler/objects/dataframe.cc:208-222 | A non-list `columns` is an error with the graph unchanged. A non-string element reports that element, with the graph unchanged. On success the Drop node holds the names in order, and the list node and its string children no longer exist. |
| DataframeHandlers.RangeEval | src/carnot/compiler/objects/dataframe.cc:224-242 | Errors unless `start` and then `stop` are expressions. On success the Range node refers to those same nodes, and nothing is deleted. |
| DataframeHandlers.LimitEval | src/carnot/compiler/objects/dataframe.cc:244-258 | Errors unless `n` is an Int, with the graph unchanged. On success the Limit node stores the integer's value and the Int node no longer exists. |
| DataframeHandlers.SubscriptEval | src/carnot/compiler/objects/dataframe.cc:260-271 | A non-expression key is an error. A List key goes to `EvalKeep`. Any other expression gives a Filter that adopts the key node unchanged, and no other node is added. |
| DataframeHandlers.EvalFilter | src/carnot/compiler/objects/dataframe.cc:273-277 | Adds exactly one Filter node over `[df.op]` that refers to the given expression. |
| DataframeHandlers.KeepBuiltIntro | src/carnot/compiler/objects/dataframe.cc:283-293 | The Map over one fresh Column per listed name, added to a graph that gained only those Columns, satisfies `KeepBuilt`. |
| DataframeHandlers.EvalKeep | src/carnot/compiler/objects/dataframe.cc:279-295 | Succeeds exactly on a list of strings; otherwise it reports the first non-string element, with the graph unchanged. On success (`KeepBuilt`) the Map has `keep_input_columns` false and one output expression per name in list order. Each output names its column and refers to a fresh Column of that name at parent index 0. Nothing else is added or removed. |
| DataframeHandlers.ParseByFunction | src/carnot/compiler/objects/dataframe.cc:307-327 | Succeeds exactly on a string or a list of strings, yielding one fresh Column per name in order at parent index 0. No other node is added. Anything else reports "string or list of strings", with the graph unchanged. |
| DataframeHandlers.GroupByEval | src/carnot/compiler/objects/dataframe.cc:297-305 | Same verdict as `ParseByFunction`. On success the GroupBy node over `[df.op]` has exactly those Columns as its groups, and it is the only other node added. |
| OTel.LastIndexOf | src/carnot/planner/objects/otel.cc:458-460 | The position of the last attribute with the given name, or -1 when none has it. |
| OTel.AttrMapLastWins | src/carnot/planner/objects/otel.cc:456-462 | A name is in the endpoint map exactly when some attribute has it, and it maps to the value of the last such attribute: a later duplicate overwrites an earlier one. |
| OTel.ToProto | src/carnot/planner/objects/otel.cc:456-462 | The proto has the endpoint's url, and its attribute map is the in-order fold `AttrMap` of the attributes. |
| OTel.ParseEndpointConfig | src/carnot/planner/objects/otel.cc:74-82 | Succeeds exactly on an Endpoint object, with its url and last-wins attribute map. Any other object is an error. |
| OTel.EndpointConfigConstructor | src/carnot/planner/objects/otel.cc:422-439 | Fails on a non-string url, then on a non-dict `attributes`, then on the first key or value that is not a string. Keys are checked before their values. On success the Endpoint has the url and one `(key, value)` attribute per dictionary entry, in order. |
| OTel.ParseAttributes | src/carnot/planner/objects/otel.cc:157-178 | Succeeds exactly when every key and value is a string, and otherwise reports the first bad entry. On success attribute i pairs key i with value i, and expected column i is a `{STRING}` "attribute" column on value i's node. |
| OTel.Int32Of | src/carnot/planner/objects/otel.cc:151 | The 32-bit value is congruent to the 64-bit literal modulo 2^32, and equal to it when it fits in 32 bits. |
| OTel.SpanKindOfLiteral | src/carnot/planner/objects/otel.cc:150-154 | A `kind` literal is accepted exactly when its low 32 bits are 0 to 5; 2^32 + 2 is accepted as kind 2. |
| OTel.SpanExportedIntro | src/carnot/planner/objects/otel.cc:92-178 | The span exporter assembled from valid arguments satisfies `SpanExported`. |
| OTel.OTelSpanDefinition | src/carnot/planner/objects/otel.cc:84-184 | Succeeds exactly when every argument is valid (`SpanArgsValid`). The endpoint, then each string argument, then `kind` (an Int whose 32-bit value `Int32Of` is between 0 and 5), then the `attributes` dict are checked in source order, and the first failure is reported. An invalid kind is reported with its full 64-bit value. On success (`SpanExported`) the span carries the name and the 32-bit kind. The expected columns are span_id, parent_span_id, trace_id `{STRING}`, status `{INT64}`, start and end time `{TIME64NS}`, then one `{STRING}` attribute column per pair. Each matches the span's field and comes from its argument's node. |
| OTel.MetricArgError | src/carnot/planner/objects/otel.cc:186-210 | No diagnostic exactly when `data` is metric data, `endpoint` is an Endpoint, `name` and `description` are strings and `attributes` is a dict. Otherwise the first failing check is reported, in that order. |
| OTel.OTelMetricDefinition | src/carnot/planner/objects/otel.cc:186-233 | Fails exactly when `MetricArgError` reports or an attribute entry is not a pair of strings. On success the metric is `data`'s metric renamed, described and extended with the attributes, and the expected columns are `data`'s columns followed by one `{STRING}` column per attribute. Column agreement carries over from `data`. |
| OTel.AppendedAttributesAgree | src/carnot/planner/objects/otel.cc:205-227 | Renaming a metric and appending attributes with one attribute column each keeps its payload and expected columns in agreement. |
| OTel.OTelGaugeDefinition | src/carnot/planner/objects/otel.cc:235-268 | Fails on the first of `value`, `start_time_unix_nano`, `time_unix_nano` that is not a string. On success the expected columns are exactly value `{INT64, FLOAT64}`, start time `{TIME64NS}` and time `{TIME64NS}`, each matching the metric's field and its argument's node. |
| OTel.SummaryBuiltIntro | src/carnot/planner/objects/otel.cc:276-336 | The summary assembled from valid arguments satisfies `SummaryBuilt`. |
| OTel.OTelSummaryDefinition | src/carnot/planner/objects/otel.cc:270-337 | Fails on `count`, then `sum`, then a non-dict `quantile_values`, then the first bad quantile pair (key a Float, value a string), then the two time columns. On success (`SummaryBuilt`) the expected columns are count and sum `{FLOAT64}`, one `{FLOAT64}` column per quantile pair in dictionary order, then the two `{TIME64NS}` time columns, each agreeing with the payload. |

## Left out

- Argument parsing, method registration, docstrings, default values and the `metadata` attribute. The handlers receive arguments already resolved: a live node per named argument (`HasArgs`), and the keyword list for `agg`.
- The graph store's own code and the node constructors are not part of this model. `IR.CreateNode` stores a node under a never-used ID and never fails. Checks a constructor may make, such as the Join key counts or mapping `how` to a join type, are not modelled.
- `IR.DeleteNode` and `IR.DeleteNodeAndChildren` do not check that no other node still refers to the deleted one.
- The code of `ParseStringsFromCollection`, of `GetArgAs<T>` and of the span-kind enumeration of the plan proto is not modelled. The model takes the first to return the strings in order, or an error at the first non-string. It takes the second, with `GetArgAsString` on top of it, to return the node, or an error naming the argument and kind. A valid span kind is taken to be 0 to 5, the OpenTelemetry SpanKind values, checked on the literal cut to a 32-bit `int` as the generated validity check takes it.
- Diagnostics raised through `GetArgAs` are attached to the call (`ObjectError`), not to the call's syntax-tree node. Message texts are not rendered.
- AggEval: requires `AggArgsSeparate`. Every tuple must have the two live elements that `ParseNameTuple` only debug-checks. No two tuple values may be the same node, and no name element may be the tuple of an earlier keyword: the source would read a node it has already deleted. No two tuple values may share a function node, and one tuple value may not be another's function. The model excludes such scripts although the source handles some of them: when one function bound to a variable is used in two tuples, the source reports "Unexpected aggregate function" on the second. Name strings may be shared (`AggSharedNameString`). So may values that are not tuples, including an earlier keyword's function (`AggSharedNonTuple`, `AggFunctionAsValue`); `agg` rejects those values.
- OTelSpanDefinition, OTelMetricDefinition, OTelSummaryDefinition: require as many dictionary values as keys. The source aborts on that mismatch with an assertion instead of returning an error.
- EndpointConfigConstructor: requires as many attribute values as keys. The source reads the value at each key's position without a check.
- The expected column of a quantile keeps the quantile as a number (`QuantileRole`), not as the formatted role name.
- The `Exporter` closure and the deferred creation of the export sink node. A builder returns the sink payload and the expected columns it would pass on.
- Protobuf encoding. Payloads are plain datatypes. A Dataframe is the operator it wraps.
- JoinEval: the key-count check and the mapping of `how` to a join type belong to the JoinIR constructor, which is not modelled.
- AggEval: only the tuple node is deleted (`DeleteNode`, src/carnot/compiler/objects/dataframe.cc:204). Its string element stays in the graph.
