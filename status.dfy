/**
 * `Status` / `StatusOr<T>` of the compiler and the diagnostics the handlers
 * report. A diagnostic is attached either to an IR node
 * (`CreateIRNodeError`) or to a script object (`CreateError`); the reason
 * names the message template and the values substituted into it.
 */
module Status {
  import opened IRGraph

  datatype Option<T> = None | Some(value: T)

  datatype Reason =
    // dataframe.cc
    | RightNotOperator(got: Kind)  // `right` is not an operator; reports its kind
    | HowNotString(got: Kind)  // `how` is not a string; reports its kind
    | NotLabelOrLabels(argName: string)  // a join key argument is neither a label nor a list of labels
    | SuffixesNotStrings(got: Kind)  // `suffixes` is not a list or tuple of strings
    | SuffixesCount(count: nat)  // `suffixes` does not hold exactly two strings; reports the count
    | AggKwargNotTuple(got: Kind)  // an `agg` keyword value is not a tuple
    | TupleFirstNotString(got: Kind)  // the first element of an `agg` tuple is not a string
    | TupleSecondNotFunc(got: Kind)  // the second element of an `agg` tuple is not a function call
    | UnexpectedAggregateFunction  // the aggregate function call already has arguments
    | DropColumnsNotList(got: Kind)  // the `columns` argument of `drop` is not a list
    | StartNotExpression  // `start` of a range is not an expression
    | StopNotExpression  // `stop` of a range is not an expression
    | LimitNotInt  // `n` of `head` is not an integer
    | SubscriptNotExpression(got: Kind)  // a subscript key is not an expression
    | ByNotLabels  // `by` of `groupby` is neither a string nor a list of strings
    | CollectionElementNotString  // an element of a collection of names is not a string
    // otel.cc
    | ArgWrongType(argName: string, expected: Kind)  // a named argument is not a node of the expected kind
    | EndpointNotEndpointConfig  // `endpoint` is not an endpoint configuration
    | InvalidSpanKind(value: int64)  // `kind` is not a value of the span-kind enumeration
    | AttributesNotDict  // `attributes` of a span or metric is not a dictionary
    | QuantileValuesNotDict  // `quantile_values` is not a dictionary
    | EndpointAttributesNotDict  // `attributes` of an endpoint is not a dictionary
    | DataNotMetricData  // `data` of a metric is not a gauge or summary definition

  datatype Error =
    | NodeError(node: NodeId, reason: Reason)
    | ObjectError(reason: Reason)

  datatype Result<T> = Ok(value: T) | Err(error: Error)
}
