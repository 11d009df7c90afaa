/**
 * The Dataframe method handlers of the query compiler: `merge` (Join), `agg`
 * (BlockingAgg), `drop`, `head` (Limit), `__getitem__` (Map or Filter),
 * `groupby`, and Range. Each classifies its argument nodes, reports a
 * diagnostic on a wrong kind, and otherwise adds Column nodes and one new
 * operator to the graph, deletes the literal nodes it consumed, and wraps the
 * operator in a new Dataframe.
 */
module DataframeHandlers {
  import opened IRGraph
  import opened Status

  /** A Dataframe value: a non-owning reference to the operator a method chain has reached. */
  datatype Dataframe = Dataframe(op: NodeId)

  /** The arguments of a call, resolved to graph nodes with defaults applied. */
  datatype ParsedArgs = ParsedArgs(named: map<string, NodeId>, kwargs: seq<(string, NodeId)>)

  /** The named arguments `names` are present and resolved to live nodes. */
  ghost predicate HasArgs(nodes: map<NodeId, Node>, args: ParsedArgs, names: set<string>) {
    forall n :: n in names ==> n in args.named && Resolved(nodes, args.named[n])
  }

  /**
   * `ParseStringsFromCollection`: the values of a collection's string
   * elements, or a diagnostic at the first element that is not a string.
   */
  function ParseStringsFromCollection(nodes: map<NodeId, Node>, elements: seq<NodeId>): (r: Result<seq<string>>)
    ensures r.Ok? <==> AllStrings(nodes, elements)
    ensures r.Ok? ==> r.value == StringsOf(nodes, elements)
    ensures r.Err? ==> exists i :: 0 <= i < |elements| && AllStrings(nodes, elements[..i]) && !IsString(nodes, elements[i])
                                   && r.error == NodeError(elements[i], CollectionElementNotString)
    decreases |elements|
  {
    if elements == [] then Ok([])
    else if !IsString(nodes, elements[0]) then
      assert AllStrings(nodes, elements[..0]);
      Err(NodeError(elements[0], CollectionElementNotString))
    else
      var rest := ParseStringsFromCollection(nodes, elements[1..]);
      if rest.Err? then
        ghost var i :| 0 <= i < |elements[1..]| && AllStrings(nodes, elements[1..][..i]) && !IsString(nodes, elements[1..][i])
                       && rest.error == NodeError(elements[1..][i], CollectionElementNotString);
        assert elements[..i + 1] == [elements[0]] + elements[1..][..i];
        rest
      else
        Ok([nodes[elements[0]].str] + rest.value)
  }

  // ---------------------------------------------------------------------------
  // merge (Join)

  const JoinArgNames: set<string> := {"right", "how", "left_on", "right_on", "suffixes"}

  /** The diagnostic `merge` reports, in the order it checks its arguments; None when it accepts them. */
  function JoinError(nodes: map<NodeId, Node>, args: ParsedArgs): Option<Error>
    requires HasArgs(nodes, args, JoinArgNames)
  {
    var right, how := args.named["right"], args.named["how"];
    var leftOn, rightOn, suffixes := args.named["left_on"], args.named["right_on"], args.named["suffixes"];
    if !IsOperator(nodes, right) then Some(NodeError(right, RightNotOperator(KindOf(nodes[right]))))
    else if !IsString(nodes, how) then Some(NodeError(how, HowNotString(KindOf(nodes[how]))))
    else if !IsLabels(nodes, leftOn) then Some(NodeError(leftOn, NotLabelOrLabels("left_on")))
    else if !IsLabels(nodes, rightOn) then Some(NodeError(rightOn, NotLabelOrLabels("right_on")))
    else if !IsCollectionOfStrings(nodes, suffixes) then
      Some(NodeError(suffixes, SuffixesNotStrings(KindOf(nodes[suffixes]))))
    else if |nodes[suffixes].children| != 2 then
      Some(NodeError(suffixes, SuffixesCount(|nodes[suffixes].children|)))
    else None
  }

  /**
   * The graph `after` holds the Join node `join` built from the arguments:
   * parents `[df.op, right]` in that order, the `how` string, the two suffix
   * strings, and fresh Column nodes for the left keys (parent index 0) and
   * the right keys (parent index 1); no other node was added.
   */
  ghost predicate JoinBuilt(before: map<NodeId, Node>, after: map<NodeId, Node>, df: Dataframe,
                            args: ParsedArgs, join: NodeId)
    requires HasArgs(before, args, JoinArgNames)
  {
    var right, how := args.named["right"], args.named["how"];
    var leftOn, rightOn, suffixes := args.named["left_on"], args.named["right_on"], args.named["suffixes"];
    && IsOperator(before, right) && IsString(before, how)
    && IsLabels(before, leftOn) && IsLabels(before, rightOn)
    && IsCollectionOfStrings(before, suffixes) && |before[suffixes].children| == 2
    && join !in before && join in after
    && after[join].OperatorIR? && after[join].parents == [df.op, right]
    && after[join].op.Join?
    && after[join].op.how == before[how].str
    && after[join].op.suffixes == StringsOf(before, before[suffixes].children)
    && FreshColumns(before, after, after[join].op.leftOn, LabelNames(before, leftOn), 0)
    && FreshColumns(before, after, after[join].op.rightOn, LabelNames(before, rightOn), 1)
    && after.Keys == before.Keys + Elems(after[join].op.leftOn) + Elems(after[join].op.rightOn) + {join}
  }

  /**
   * Accepted arguments, Columns for the left keys added first and for the
   * right keys second, then the Join node over both: that is `JoinBuilt`.
   */
  lemma JoinBuiltIntro(before: map<NodeId, Node>, afterLeft: map<NodeId, Node>, beforeJoin: map<NodeId, Node>,
                       after: map<NodeId, Node>, df: Dataframe, args: ParsedArgs, join: NodeId,
                       leftCols: seq<NodeId>, rightCols: seq<NodeId>, suffixStrs: seq<string>)
    requires HasArgs(before, args, JoinArgNames) && JoinError(before, args).None?
    requires Extends(before, afterLeft) && afterLeft.Keys == before.Keys + Elems(leftCols)
    requires FreshColumns(before, afterLeft, leftCols, LabelNames(before, args.named["left_on"]), 0)
    requires Extends(afterLeft, beforeJoin) && beforeJoin.Keys == afterLeft.Keys + Elems(rightCols)
    requires FreshColumns(afterLeft, beforeJoin, rightCols, LabelNames(before, args.named["right_on"]), 1)
    requires suffixStrs == StringsOf(before, before[args.named["suffixes"]].children)
    requires join !in beforeJoin
    requires after == beforeJoin[join := OperatorIR([df.op, args.named["right"]],
                                          Join(before[args.named["how"]].str, leftCols, rightCols, suffixStrs))]
    ensures Extends(before, after) && JoinBuilt(before, after, df, args, join)
  {
    var leftNames, rightNames := LabelNames(before, args.named["left_on"]), LabelNames(before, args.named["right_on"]);
    FreshColumnsThenNode(before, afterLeft, beforeJoin, leftCols, leftNames, 0, rightCols, rightNames, 1,
                         join, after[join]);
  }

  /** `JoinHandler::Eval`. */
  method JoinEval(g: IR, df: Dataframe, args: ParsedArgs) returns (r: Result<Dataframe>)
    requires g.Valid() && IsOperator(g.nodes, df.op) && HasArgs(g.nodes, args, JoinArgNames)
    modifies g
    ensures g.Valid() && Extends(old(g.nodes), g.nodes)
    ensures r.Err? <==> JoinError(old(g.nodes), args).Some?
    ensures r.Err? ==> JoinError(old(g.nodes), args) == Some(r.error)
    ensures r.Ok? ==> JoinBuilt(old(g.nodes), g.nodes, df, args, r.value.op)
  {
    var right, how := args.named["right"], args.named["how"];
    var leftOn, rightOn, suffixes := args.named["left_on"], args.named["right_on"], args.named["suffixes"];
    if !IsOperator(g.nodes, right) {
      return Err(NodeError(right, RightNotOperator(KindOf(g.nodes[right]))));
    }
    if !IsString(g.nodes, how) {
      return Err(NodeError(how, HowNotString(KindOf(g.nodes[how]))));
    }
    var howType := g.nodes[how].str;
    var leftOnCols := ProcessCols(g, leftOn, "left_on", 0);
    if leftOnCols.Err? {
      return Err(leftOnCols.error);
    }
    ghost var afterLeft := g.nodes;
    MatchStable(old(g.nodes), afterLeft, rightOn);
    var rightOnCols := ProcessCols(g, rightOn, "right_on", 1);
    if rightOnCols.Err? {
      return Err(rightOnCols.error);
    }
    ExtendsTrans(old(g.nodes), afterLeft, g.nodes);
    MatchStable(old(g.nodes), g.nodes, suffixes);
    if !IsCollectionOfStrings(g.nodes, suffixes) {
      return Err(NodeError(suffixes, SuffixesNotStrings(KindOf(g.nodes[suffixes]))));
    }
    var suffixStrs := ParseStringsFromCollection(g.nodes, g.nodes[suffixes].children).value;
    if |suffixStrs| != 2 {
      return Err(NodeError(suffixes, SuffixesCount(|suffixStrs|)));
    }
    ghost var beforeJoin := g.nodes;
    var join := g.CreateNode(OperatorIR([df.op, right], Join(howType, leftOnCols.value, rightOnCols.value, suffixStrs)));
    JoinBuiltIntro(old(g.nodes), afterLeft, beforeJoin, g.nodes, df, args, join,
                   leftOnCols.value, rightOnCols.value, suffixStrs);
    r := Ok(Dataframe(join));
  }

  /**
   * `JoinHandler::ProcessCols`: a string becomes one Column, a list of
   * strings one Column per element in list order, each at `parentIndex`.
   */
  method ProcessCols(g: IR, node: NodeId, argName: string, parentIndex: nat) returns (r: Result<seq<NodeId>>)
    requires g.Valid() && Resolved(g.nodes, node)
    modifies g
    ensures g.Valid() && Extends(old(g.nodes), g.nodes)
    ensures r.Ok? <==> IsLabels(old(g.nodes), node)
    ensures r.Err? ==> r.error == NodeError(node, NotLabelOrLabels(argName)) && g.nodes == old(g.nodes)
    ensures r.Ok? ==> FreshColumns(old(g.nodes), g.nodes, r.value, LabelNames(old(g.nodes), node), parentIndex)
    ensures r.Ok? ==> g.nodes.Keys == old(g.nodes).Keys + Elems(r.value)
  {
    if IsListOfStrings(g.nodes, node) {
      var children := g.nodes[node].children;
      ghost var names := StringsOf(g.nodes, children);
      var columns := new NodeId[|children|];
      for idx := 0 to |children|
        invariant g.Valid() && Extends(old(g.nodes), g.nodes)
        invariant FreshColumns(old(g.nodes), g.nodes, columns[..idx], names[..idx], parentIndex)
        invariant g.nodes.Keys == old(g.nodes).Keys + Elems(columns[..idx])
      {
        ghost var now := g.nodes;
        var name := g.nodes[children[idx]].str;
        var col := g.CreateNode(ColumnIR(name, parentIndex));
        assert name == names[idx];
        FreshColumnsSnoc(old(g.nodes), now, columns[..idx], names, idx, parentIndex, col);
        columns[idx] := col;
        assert columns[..idx + 1] == columns[..idx] + [col];
      }
      assert columns[..] == columns[..|children|] && names == names[..|children|];
      return Ok(columns[..]);
    } else if !IsString(g.nodes, node) {
      return Err(NodeError(node, NotLabelOrLabels(argName)));
    }
    var col := g.CreateNode(ColumnIR(g.nodes[node].str, parentIndex));
    return Ok([col]);
  }

  // ---------------------------------------------------------------------------
  // agg (BlockingAgg)

  /** What `ParseNameTuple` assumes of its tuple: two live elements (it only debug-checks the arity). */
  ghost predicate NameTupleShaped(nodes: map<NodeId, Node>, t: NodeId) {
    IsTuple(nodes, t) && |nodes[t].children| == 2
    && nodes[t].children[0] in nodes && nodes[t].children[1] in nodes
  }

  /** The diagnostic `ParseNameTuple` reports; None when the tuple is (string, argument-less function). */
  function NameTupleError(nodes: map<NodeId, Node>, t: NodeId): Option<Error>
    requires NameTupleShaped(nodes, t)
  {
    var name, func := nodes[t].children[0], nodes[t].children[1];
    if !IsString(nodes, name) then Some(NodeError(name, TupleFirstNotString(KindOf(nodes[name]))))
    else if !IsFunc(nodes, func) then Some(NodeError(func, TupleSecondNotFunc(KindOf(nodes[func]))))
    else if nodes[func].args != [] then Some(NodeError(func, UnexpectedAggregateFunction))
    else None
  }

  /** The tuple `t` is a well-formed `(name, aggregate function)` pair. */
  ghost predicate IsNameTuple(nodes: map<NodeId, Node>, t: NodeId) {
    NameTupleShaped(nodes, t) && NameTupleError(nodes, t).None?
  }

  /**
   * Desugaring one name tuple: a fresh Column `col` named by the tuple's
   * string at parent index 0 becomes the one argument of the tuple's
   * function, and the tuple node is deleted.
   */
  ghost function Splice(nodes: map<NodeId, Node>, t: NodeId, col: NodeId): map<NodeId, Node>
    requires IsNameTuple(nodes, t)
  {
    var name, func := nodes[t].children[0], nodes[t].children[1];
    (nodes[col := ColumnIR(nodes[name].str, 0)][func := FuncIR(nodes[func].funcName, [col])]) - {t}
  }

  /** `AggHandler::ParseNameTuple`. */
  method ParseNameTuple(g: IR, tuple: NodeId) returns (r: Result<NodeId>)
    requires g.Valid() && NameTupleShaped(g.nodes, tuple)
    modifies g
    ensures g.Valid()
    ensures r.Err? <==> NameTupleError(old(g.nodes), tuple).Some?
    ensures r.Err? ==> NameTupleError(old(g.nodes), tuple) == Some(r.error) && g.nodes == old(g.nodes) && g.used == old(g.used)
    ensures r.Ok? ==> && IsNameTuple(old(g.nodes), tuple) && r.value == old(g.nodes)[tuple].children[1]
                      && IsFunc(g.nodes, r.value) && |g.nodes[r.value].args| == 1
                      && var col := g.nodes[r.value].args[0];
                         && col !in old(g.used) && g.used == old(g.used) + {col}
                         && g.nodes == Splice(old(g.nodes), tuple, col)
  {
    var childone, childtwo := g.nodes[tuple].children[0], g.nodes[tuple].children[1];
    if !IsString(g.nodes, childone) {
      return Err(NodeError(childone, TupleFirstNotString(KindOf(g.nodes[childone]))));
    }
    if !IsFunc(g.nodes, childtwo) {
      return Err(NodeError(childtwo, TupleSecondNotFunc(KindOf(g.nodes[childtwo]))));
    }
    var argcolName := g.nodes[childone].str;
    if g.nodes[childtwo].args != [] {
      return Err(NodeError(childtwo, UnexpectedAggregateFunction));
    }
    var argcol := g.CreateNode(ColumnIR(argcolName, 0));
    g.AddArg(childtwo, argcol);
    g.DeleteNode(tuple);
    assert old(g.nodes)[childtwo].args + [argcol] == [argcol];
    return Ok(childtwo);
  }

  /** The nodes desugaring one keyword value deletes or rewrites: the tuple and its function. */
  ghost function Parts(nodes: map<NodeId, Node>, v: NodeId): set<NodeId> {
    if NameTupleShaped(nodes, v) then {v, nodes[v].children[1]} else {v}
  }

  /**
   * What `agg` needs of its keyword values beyond what it checks: each is
   * a live node, a tuple among them has the two elements `ParseNameTuple`
   * reads, no two tuple values share their tuple or function node or use
   * one's tuple as the other's function, and no tuple's name element is
   * the tuple of an earlier well-formed keyword (which is deleted by the
   * time it would be read). Name strings, and values that are not tuples,
   * may be shared.
   */
  ghost predicate AggArgsSeparate(nodes: map<NodeId, Node>, kwargs: seq<(string, NodeId)>) {
    && (forall i :: 0 <= i < |kwargs| ==> kwargs[i].1 in nodes)
    && (forall i :: 0 <= i < |kwargs| && IsTuple(nodes, kwargs[i].1) ==> NameTupleShaped(nodes, kwargs[i].1))
    && (forall i, j :: 0 <= i < j < |kwargs| && IsTuple(nodes, kwargs[i].1) && IsTuple(nodes, kwargs[j].1) ==>
          Parts(nodes, kwargs[i].1) !! Parts(nodes, kwargs[j].1))
    && (forall i, j :: 0 <= j < i < |kwargs| && NameTupleShaped(nodes, kwargs[i].1) && IsNameTuple(nodes, kwargs[j].1) ==>
          nodes[kwargs[i].1].children[0] != kwargs[j].1)
  }

  /**
   * Two keywords may name their columns with one shared string node, as
   * when a name bound to a variable is used in two tuples, provided their
   * tuples and functions are distinct.
   */
  lemma AggSharedNameString(nodes: map<NodeId, Node>, a: string, t1: NodeId, b: string, t2: NodeId)
    requires IsNameTuple(nodes, t1) && IsNameTuple(nodes, t2)
    requires nodes[t1].children[0] == nodes[t2].children[0]
    requires {t1, nodes[t1].children[1]} !! {t2, nodes[t2].children[1]}
    ensures AggArgsSeparate(nodes, [(a, t1), (b, t2)]) && AllNameTuples(nodes, [(a, t1), (b, t2)])
  {
    var kwargs := [(a, t1), (b, t2)];
    assert Parts(nodes, t1) == {t1, nodes[t1].children[1]} && Parts(nodes, t2) == {t2, nodes[t2].children[1]};
    assert IsString(nodes, nodes[t2].children[0]) && IsTuple(nodes, t1);
    assert nodes[kwargs[1].1].children[0] != kwargs[0].1;
  }

  /** Two keywords may share one value that is not a tuple, as in `x = 1` used twice; `agg` rejects the first. */
  lemma AggSharedNonTuple(nodes: map<NodeId, Node>, a: string, b: string, v: NodeId)
    requires v in nodes && !IsTuple(nodes, v)
    ensures AggArgsSeparate(nodes, [(a, v), (b, v)]) && !AllNameTuples(nodes, [(a, v), (b, v)])
  {
    assert [(a, v), (b, v)][0].1 == v && !IsNameTuple(nodes, v);
  }

  /** A later keyword's value may be an earlier keyword's function; `agg` rejects it as not a tuple. */
  lemma AggFunctionAsValue(nodes: map<NodeId, Node>, a: string, t: NodeId, b: string)
    requires IsNameTuple(nodes, t)
    ensures var kwargs := [(a, t), (b, nodes[t].children[1])];
            AggArgsSeparate(nodes, kwargs) && !AllNameTuples(nodes, kwargs)
  {
    var f := nodes[t].children[1];
    assert IsFunc(nodes, f) && !IsNameTuple(nodes, f);
    assert [(a, t), (b, f)][1].1 == f;
  }

  /** The diagnostic `agg` reports for one keyword value; None when it accepts it. */
  function AggKwargError(nodes: map<NodeId, Node>, v: NodeId): Option<Error>
    requires v in nodes && (IsTuple(nodes, v) ==> NameTupleShaped(nodes, v))
  {
    if !IsTuple(nodes, v) then Some(NodeError(v, AggKwargNotTuple(KindOf(nodes[v]))))
    else NameTupleError(nodes, v)
  }

  /** Every keyword value of `agg` is a well-formed name tuple. */
  ghost predicate AllNameTuples(nodes: map<NodeId, Node>, kwargs: seq<(string, NodeId)>) {
    forall i :: 0 <= i < |kwargs| ==> IsNameTuple(nodes, kwargs[i].1)
  }

  /**
   * The graph once every keyword tuple has been desugared in keyword
   * order, tuple i with the Column `cols[i]`; names and functions are read
   * from the graph as it was before `agg`.
   */
  ghost function Desugared(before: map<NodeId, Node>, kwargs: seq<(string, NodeId)>, cols: seq<NodeId>): map<NodeId, Node>
    requires AllNameTuples(before, kwargs) && |cols| == |kwargs|
    decreases |kwargs|
  {
    if kwargs == [] then before
    else
      var n := |kwargs| - 1;
      var t := kwargs[n].1;
      var name, func := before[t].children[0], before[t].children[1];
      var prior := Desugared(before, kwargs[..n], cols[..n]);
      (prior[cols[n] := ColumnIR(before[name].str, 0)][func := FuncIR(before[func].funcName, [cols[n]])]) - {t}
  }

  /** The Columns `cols` are new to `before` and pairwise distinct. */
  ghost predicate FreshDistinct(before: map<NodeId, Node>, cols: seq<NodeId>) {
    && (forall k :: 0 <= k < |cols| ==> cols[k] !in before)
    && (forall k, l :: 0 <= k < l < |cols| ==> cols[k] != cols[l])
  }

  /** The keyword values of `agg`. */
  ghost function KwargValues(kwargs: seq<(string, NodeId)>): set<NodeId> {
    set i | 0 <= i < |kwargs| :: kwargs[i].1
  }

  /** The functions of the keywords' name tuples. */
  ghost function KwargFuncs(before: map<NodeId, Node>, kwargs: seq<(string, NodeId)>): set<NodeId>
    requires AllNameTuples(before, kwargs)
  {
    set i | 0 <= i < |kwargs| :: before[kwargs[i].1].children[1]
  }

  /** Appending a keyword adds its value to the keyword values. */
  lemma KwargValuesSnoc(kwargs: seq<(string, NodeId)>, n: nat)
    requires |kwargs| == n + 1
    ensures KwargValues(kwargs) == KwargValues(kwargs[..n]) + {kwargs[n].1}
  {
    var prefix := kwargs[..n];
    forall x | x in KwargValues(kwargs) ensures x in KwargValues(prefix) + {kwargs[n].1} {
      var i :| 0 <= i < |kwargs| && kwargs[i].1 == x;
      if i < n { assert prefix[i] == kwargs[i]; }
    }
    forall x | x in KwargValues(prefix) ensures x in KwargValues(kwargs) {
      var i :| 0 <= i < |prefix| && prefix[i].1 == x;
      assert kwargs[i] == prefix[i];
    }
  }

  /** Appending a keyword adds its tuple's function to the keyword functions. */
  lemma KwargFuncsSnoc(before: map<NodeId, Node>, kwargs: seq<(string, NodeId)>, n: nat)
    requires |kwargs| == n + 1 && AllNameTuples(before, kwargs)
    ensures AllNameTuples(before, kwargs[..n])
    ensures KwargFuncs(before, kwargs) == KwargFuncs(before, kwargs[..n]) + {before[kwargs[n].1].children[1]}
  {
    var prefix := kwargs[..n];
    assert forall i :: 0 <= i < n ==> prefix[i] == kwargs[i];
    forall x | x in KwargFuncs(before, kwargs)
      ensures x in KwargFuncs(before, prefix) + {before[kwargs[n].1].children[1]}
    {
      var i :| 0 <= i < |kwargs| && before[kwargs[i].1].children[1] == x;
      if i < n { assert prefix[i] == kwargs[i]; }
    }
    forall x | x in KwargFuncs(before, prefix) ensures x in KwargFuncs(before, kwargs) {
      var i :| 0 <= i < |prefix| && before[prefix[i].1].children[1] == x;
      assert kwargs[i] == prefix[i];
    }
  }

  /** The last keyword's function is none of the earlier keyword values. */
  lemma LastFuncNotEarlierValue(before: map<NodeId, Node>, kwargs: seq<(string, NodeId)>, n: nat)
    requires AggArgsSeparate(before, kwargs) && AllNameTuples(before, kwargs) && |kwargs| == n + 1
    ensures before[kwargs[n].1].children[1] !in KwargValues(kwargs[..n])
  {
    var prefix, t := kwargs[..n], kwargs[n].1;
    forall i | 0 <= i < |prefix| ensures prefix[i].1 != before[t].children[1] {
      assert prefix[i] == kwargs[i];
      assert Parts(before, kwargs[i].1) !! Parts(before, t);
    }
  }

  /** Dropping the last Column keeps the rest new and distinct; no new Column was in `before`. */
  lemma FreshDistinctSnoc(before: map<NodeId, Node>, cols: seq<NodeId>, n: nat)
    requires |cols| == n + 1 && FreshDistinct(before, cols)
    ensures FreshDistinct(before, cols[..n]) && cols[n] !in before
    ensures Elems(cols) == Elems(cols[..n]) + {cols[n]} && Elems(cols) !! before.Keys
  {
    assert cols == cols[..n] + [cols[n]];
  }

  /** One desugaring step on a graph whose frame relative to `before` is known. */
  lemma SpliceFrame(before: map<NodeId, Node>, prior: map<NodeId, Node>, gone: set<NodeId>, changed: set<NodeId>,
                    added: set<NodeId>, t: NodeId, func: NodeId, col: NodeId, colNode: Node, funcNode: Node,
                    after: map<NodeId, Node>)
    requires prior.Keys == before.Keys - gone + added
    requires forall x :: x in before && x !in gone && x !in changed ==> prior[x] == before[x]
    requires func in before && func !in gone && func != t && t in before && t !in added && col !in before
    requires after == (prior[col := colNode][func := funcNode]) - {t}
    ensures after.Keys == before.Keys - (gone + {t}) + (added + {col})
    ensures forall x :: x in before && x !in gone + {t} && x !in changed + {func} ==> after[x] == before[x]
  {
  }

  /**
   * What desugaring leaves alone: the graph keeps every node except the
   * tuples and gains exactly the new Columns, and every node that is
   * neither a tuple nor a tuple's function is unchanged.
   */
  lemma {:induction false} DesugaredFrame(before: map<NodeId, Node>, kwargs: seq<(string, NodeId)>, cols: seq<NodeId>)
    requires AggArgsSeparate(before, kwargs) && AllNameTuples(before, kwargs)
    requires |cols| == |kwargs| && FreshDistinct(before, cols)
    ensures var after := Desugared(before, kwargs, cols);
            && after.Keys == before.Keys - KwargValues(kwargs) + Elems(cols)
            && forall x :: x in before && x !in KwargValues(kwargs) && x !in KwargFuncs(before, kwargs) ==>
                 after[x] == before[x]
    decreases |kwargs|
  {
    if kwargs != [] {
      var n := |kwargs| - 1;
      var prefix, colsPrefix := kwargs[..n], cols[..n];
      AggArgsSeparatePrefix(before, kwargs, n);
      KwargValuesSnoc(kwargs, n);
      KwargFuncsSnoc(before, kwargs, n);
      LastFuncNotEarlierValue(before, kwargs, n);
      FreshDistinctSnoc(before, cols, n);
      DesugaredFrame(before, prefix, colsPrefix);
      var t := kwargs[n].1;
      var func := before[t].children[1];
      assert Parts(before, t) == {t, func};
      SpliceFrame(before, Desugared(before, prefix, colsPrefix), KwargValues(prefix), KwargFuncs(before, prefix),
                  Elems(colsPrefix), t, func, cols[n], ColumnIR(before[before[t].children[0]].str, 0),
                  FuncIR(before[func].funcName, [cols[n]]), Desugared(before, kwargs, cols));
    }
  }

  /** The requirement on the keyword values holds of every prefix. */
  lemma AggArgsSeparatePrefix(nodes: map<NodeId, Node>, kwargs: seq<(string, NodeId)>, n: nat)
    requires AggArgsSeparate(nodes, kwargs) && n <= |kwargs|
    ensures AggArgsSeparate(nodes, kwargs[..n])
  {
    var prefix := kwargs[..n];
    forall i, j | 0 <= i < j < |prefix| && IsTuple(nodes, prefix[i].1) && IsTuple(nodes, prefix[j].1)
      ensures Parts(nodes, prefix[i].1) !! Parts(nodes, prefix[j].1)
    {
      assert prefix[i] == kwargs[i] && prefix[j] == kwargs[j];
    }
    forall i, j | 0 <= j < i < |prefix| && NameTupleShaped(nodes, prefix[i].1) && IsNameTuple(nodes, prefix[j].1)
      ensures nodes[prefix[i].1].children[0] != prefix[j].1
    {
      assert prefix[i] == kwargs[i] && prefix[j] == kwargs[j];
    }
  }

  /** A later desugaring step of other nodes keeps what an earlier step did to its tuple, Column and function. */
  lemma SpliceKeeps(prior: map<NodeId, Node>, t: NodeId, col: NodeId, func: NodeId, colNode: Node, funcNode: Node,
                    t': NodeId, col': NodeId, func': NodeId, colNode': Node, funcNode': Node, after: map<NodeId, Node>)
    requires t !in prior && col in prior && prior[col] == colNode && func in prior && prior[func] == funcNode
    requires col != col' && col != func' && col != t' && func != func' && func != t' && func != col'
    requires t != col' && t != func'
    requires after == (prior[col' := colNode'][func' := funcNode']) - {t'}
    ensures t !in after && col in after && after[col] == colNode && func in after && after[func] == funcNode
  {
  }

  /**
   * What desugaring does to each keyword: tuple i is gone, the Column
   * `cols[i]` carries tuple i's name at parent index 0, and tuple i's
   * function has `cols[i]` as its one argument.
   */
  lemma {:induction false} DesugaredEffect(before: map<NodeId, Node>, kwargs: seq<(string, NodeId)>, cols: seq<NodeId>)
    requires AggArgsSeparate(before, kwargs) && AllNameTuples(before, kwargs)
    requires |cols| == |kwargs| && FreshDistinct(before, cols)
    ensures forall i :: 0 <= i < |kwargs| ==>
              var t := kwargs[i].1;
              var name, func := before[t].children[0], before[t].children[1];
              var after := Desugared(before, kwargs, cols);
              && t !in after
              && cols[i] in after && after[cols[i]] == ColumnIR(before[name].str, 0)
              && func in after && after[func] == FuncIR(before[func].funcName, [cols[i]])
    decreases |kwargs|
  {
    if kwargs != [] {
      var n := |kwargs| - 1;
      var prefix, colsPrefix := kwargs[..n], cols[..n];
      AggArgsSeparatePrefix(before, kwargs, n);
      FreshDistinctSnoc(before, cols, n);
      DesugaredEffect(before, prefix, colsPrefix);
      var prior := Desugared(before, prefix, colsPrefix);
      var last := kwargs[n].1;
      var after := Desugared(before, kwargs, cols);
      assert after == (prior[cols[n] := ColumnIR(before[before[last].children[0]].str, 0)]
                            [before[last].children[1] := FuncIR(before[before[last].children[1]].funcName, [cols[n]])]) - {last};
      forall i | 0 <= i < |kwargs|
        ensures var t := kwargs[i].1;
                var name, func := before[t].children[0], before[t].children[1];
                && t !in after
                && cols[i] in after && after[cols[i]] == ColumnIR(before[name].str, 0)
                && func in after && after[func] == FuncIR(before[func].funcName, [cols[i]])
      {
        if i < n {
          var t := kwargs[i].1;
          assert prefix[i] == kwargs[i] && colsPrefix[i] == cols[i];
          assert Parts(before, t) !! Parts(before, last);
          assert Parts(before, t) == {t, before[t].children[1]};
          assert t != last && cols[i] != cols[n];
          SpliceKeeps(prior, t, cols[i], before[t].children[1], ColumnIR(before[before[t].children[0]].str, 0),
                      FuncIR(before[before[t].children[1]].funcName, [cols[i]]),
                      last, cols[n], before[last].children[1], ColumnIR(before[before[last].children[0]].str, 0),
                      FuncIR(before[before[last].children[1]].funcName, [cols[n]]), after);
        }
      }
    }
  }

  /**
   * `after` holds the BlockingAgg node `agg`: parent `[df.op]`, no groups,
   * and one aggregate expression per keyword, in keyword order, naming the
   * keyword and pointing at the function of its tuple; every tuple has
   * been desugared with its own new Column, and nothing else changed.
   */
  ghost predicate AggBuilt(before: map<NodeId, Node>, after: map<NodeId, Node>, df: Dataframe,
                           kwargs: seq<(string, NodeId)>, agg: NodeId)
  {
    && AllNameTuples(before, kwargs)
    && agg !in before && agg in after
    && after[agg].OperatorIR? && after[agg].parents == [df.op]
    && after[agg].op.BlockingAgg? && after[agg].op.groups == []
    && |after[agg].op.aggregates| == |kwargs|
    && (forall i :: 0 <= i < |kwargs| ==>
          after[agg].op.aggregates[i] == ColExpr(kwargs[i].0, before[kwargs[i].1].children[1]))
    && exists cols ::
         && |cols| == |kwargs| && FreshDistinct(before, cols) && agg !in Elems(cols)
         && after == Desugared(before, kwargs, cols)[agg := after[agg]]
  }

  /**
   * The state of `agg` after its first `i` keywords: all were name tuples
   * and have been desugared with the Columns `cols`; every node outside
   * `touched` is as it was, and no later keyword's tuple or function is
   * touched.
   */
  ghost predicate AggProgress(before: map<NodeId, Node>, kwargs: seq<(string, NodeId)>, i: nat,
                              cols: seq<NodeId>, touched: set<NodeId>, nodes: map<NodeId, Node>)
  {
    && i <= |kwargs|
    && (forall k :: 0 <= k < i ==> IsNameTuple(before, kwargs[k].1))
    && |cols| == i && FreshDistinct(before, cols)
    && nodes == Desugared(before, kwargs[..i], cols)
    && (forall x :: x in before && x !in touched ==> x in nodes && nodes[x] == before[x])
    && (forall j :: i <= j < |kwargs| && IsTuple(before, kwargs[j].1) ==> Parts(before, kwargs[j].1) !! touched)
  }

  /**
   * The keywords from `i` on can still be read: a touched node still
   * present is a function before and after, a touched node that is gone
   * was a tuple, and every later keyword's name element is still present.
   */
  ghost predicate NamesReadable(before: map<NodeId, Node>, kwargs: seq<(string, NodeId)>, i: nat,
                                touched: set<NodeId>, nodes: map<NodeId, Node>)
  {
    && touched <= before.Keys
    && (forall x :: x in touched && x in nodes ==> IsFunc(before, x) && IsFunc(nodes, x))
    && (forall x :: x in touched && x !in nodes ==> IsTuple(before, x))
    && (forall j :: i <= j < |kwargs| && NameTupleShaped(before, kwargs[j].1) ==> before[kwargs[j].1].children[0] in nodes)
  }

  /** Keyword `i` reads only nodes that the earlier keywords left as they were, so it gets the same verdict. */
  lemma AggKwargIntact(before: map<NodeId, Node>, kwargs: seq<(string, NodeId)>, i: nat,
                       cols: seq<NodeId>, touched: set<NodeId>, nodes: map<NodeId, Node>)
    requires AggArgsSeparate(before, kwargs) && i < |kwargs|
    requires AggProgress(before, kwargs, i, cols, touched, nodes) && NamesReadable(before, kwargs, i, touched, nodes)
    ensures kwargs[i].1 in nodes && KindOf(nodes[kwargs[i].1]) == KindOf(before[kwargs[i].1])
    ensures IsTuple(before, kwargs[i].1) ==> forall x :: x in Parts(before, kwargs[i].1) ==> x in nodes && nodes[x] == before[x]
    ensures IsTuple(nodes, kwargs[i].1) == IsTuple(before, kwargs[i].1)
    ensures IsTuple(nodes, kwargs[i].1) ==> NameTupleShaped(nodes, kwargs[i].1)
                                             && NameTupleError(nodes, kwargs[i].1) == NameTupleError(before, kwargs[i].1)
    ensures IsNameTuple(before, kwargs[i].1) ==> var name := before[kwargs[i].1].children[0];
                                                 name in nodes && nodes[name] == before[name]
  {
    var t := kwargs[i].1;
    assert t in Parts(before, t);
    if t in touched {
      assert t in nodes && IsFunc(before, t) && IsFunc(nodes, t);
    }
    if IsTuple(before, t) {
      var name, func := before[t].children[0], before[t].children[1];
      assert func in Parts(before, t);
      assert name in nodes;
      if name in touched {
        assert IsFunc(before, name) && IsFunc(nodes, name);
      }
    }
  }

  /** Desugaring keyword `i` with a new Column advances the state by one keyword. */
  lemma AggAdvance(before: map<NodeId, Node>, kwargs: seq<(string, NodeId)>, i: nat,
                   cols: seq<NodeId>, touched: set<NodeId>, nodes: map<NodeId, Node>,
                   col: NodeId, next: map<NodeId, Node>)
    requires AggArgsSeparate(before, kwargs) && i < |kwargs|
    requires AggProgress(before, kwargs, i, cols, touched, nodes) && NamesReadable(before, kwargs, i, touched, nodes)
    requires IsNameTuple(before, kwargs[i].1) && IsNameTuple(nodes, kwargs[i].1)
    requires col !in before && col !in Elems(cols)
    requires next == Splice(nodes, kwargs[i].1, col)
    ensures AggProgress(before, kwargs, i + 1, cols + [col], touched + Parts(before, kwargs[i].1), next)
  {
    var t := kwargs[i].1;
    AggKwargIntact(before, kwargs, i, cols, touched, nodes);
    assert kwargs[..i + 1][..i] == kwargs[..i] && (cols + [col])[..i] == cols;
    forall j | i + 1 <= j < |kwargs| && IsTuple(before, kwargs[j].1)
      ensures Parts(before, kwargs[j].1) !! touched + Parts(before, t)
    {
      assert Parts(before, kwargs[i].1) !! Parts(before, kwargs[j].1);
    }
  }

  /** Desugaring keyword `i` keeps the later keywords' name elements readable. */
  lemma NamesReadableAdvance(before: map<NodeId, Node>, kwargs: seq<(string, NodeId)>, i: nat,
                             cols: seq<NodeId>, touched: set<NodeId>, nodes: map<NodeId, Node>,
                             col: NodeId, next: map<NodeId, Node>)
    requires AggArgsSeparate(before, kwargs) && i < |kwargs|
    requires AggProgress(before, kwargs, i, cols, touched, nodes) && NamesReadable(before, kwargs, i, touched, nodes)
    requires IsNameTuple(before, kwargs[i].1) && IsNameTuple(nodes, kwargs[i].1)
    requires col !in before
    requires next == Splice(nodes, kwargs[i].1, col)
    ensures NamesReadable(before, kwargs, i + 1, touched + Parts(before, kwargs[i].1), next)
  {
    var t := kwargs[i].1;
    var func := before[t].children[1];
    assert Parts(before, t) == {t, func};
    assert t !in next;
    forall x | x in touched + Parts(before, t) && x in next
      ensures IsFunc(before, x) && IsFunc(next, x)
    {
      if x != func {
        assert x in touched && x in nodes;
      }
    }
    forall x | x in touched + Parts(before, t) && x !in next
      ensures IsTuple(before, x)
    {
      if x != t {
        assert x in touched && x !in nodes;
      }
    }
    forall j | i + 1 <= j < |kwargs| && NameTupleShaped(before, kwargs[j].1)
      ensures before[kwargs[j].1].children[0] in next
    {
      assert before[kwargs[j].1].children[0] != t;
    }
  }

  /** Appending keyword `i`'s aggregate expression keeps the list in keyword order. */
  lemma AggExprsSnoc(before: map<NodeId, Node>, kwargs: seq<(string, NodeId)>, i: nat,
                     exprs: seq<ColExpr>, func: NodeId)
    requires i < |kwargs| && |exprs| == i
    requires forall k :: 0 <= k < i ==>
               IsNameTuple(before, kwargs[k].1) && exprs[k] == ColExpr(kwargs[k].0, before[kwargs[k].1].children[1])
    requires IsNameTuple(before, kwargs[i].1) && func == before[kwargs[i].1].children[1]
    ensures forall k :: 0 <= k < i + 1 ==>
              IsNameTuple(before, kwargs[k].1)
              && (exprs + [ColExpr(kwargs[i].0, func)])[k] == ColExpr(kwargs[k].0, before[kwargs[k].1].children[1])
  {
  }

  /** The BlockingAgg node over every keyword, added to the fully desugared graph: that is `AggBuilt`. */
  lemma AggBuiltIntro(before: map<NodeId, Node>, after: map<NodeId, Node>, df: Dataframe,
                      kwargs: seq<(string, NodeId)>, agg: NodeId, cols: seq<NodeId>, exprs: seq<ColExpr>)
    requires |exprs| == |kwargs| == |cols| && FreshDistinct(before, cols)
    requires forall k :: 0 <= k < |kwargs| ==>
               IsNameTuple(before, kwargs[k].1) && exprs[k] == ColExpr(kwargs[k].0, before[kwargs[k].1].children[1])
    requires agg !in before && agg !in Elems(cols)
    requires after == Desugared(before, kwargs, cols)[agg := OperatorIR([df.op], BlockingAgg([], exprs))]
    ensures AggBuilt(before, after, df, kwargs, agg)
  {
    assert after == Desugared(before, kwargs, cols)[agg := after[agg]];
  }

  /** `AggHandler::Eval`. */
  method AggEval(g: IR, df: Dataframe, args: ParsedArgs) returns (r: Result<Dataframe>)
    requires g.Valid() && IsOperator(g.nodes, df.op) && AggArgsSeparate(g.nodes, args.kwargs)
    modifies g
    ensures g.Valid()
    ensures r.Ok? <==> AllNameTuples(old(g.nodes), args.kwargs)
    ensures r.Err? ==> exists i :: 0 <= i < |args.kwargs| && AggKwargError(old(g.nodes), args.kwargs[i].1) == Some(r.error)
                                   && forall k :: 0 <= k < i ==> AggKwargError(old(g.nodes), args.kwargs[k].1).None?
    ensures r.Ok? ==> AggBuilt(old(g.nodes), g.nodes, df, args.kwargs, r.value.op)
  {
    ghost var before := g.nodes;
    var kwargs := args.kwargs;
    var aggregateExpressions: seq<ColExpr> := [];
    ghost var cols: seq<NodeId> := [];
    ghost var touched: set<NodeId> := {};
    for i := 0 to |kwargs|
      invariant g.Valid() && before.Keys <= g.used && Elems(cols) <= g.used
      invariant AggProgress(before, kwargs, i, cols, touched, g.nodes)
      invariant NamesReadable(before, kwargs, i, touched, g.nodes)
      invariant |aggregateExpressions| == i
      invariant forall k :: 0 <= k < i ==>
                  aggregateExpressions[k] == ColExpr(kwargs[k].0, before[kwargs[k].1].children[1])
    {
      var (name, expr) := kwargs[i];
      AggKwargIntact(before, kwargs, i, cols, touched, g.nodes);
      if !IsTuple(g.nodes, expr) {
        assert AggKwargError(before, expr) == Some(NodeError(expr, AggKwargNotTuple(KindOf(g.nodes[expr]))));
        return Err(NodeError(expr, AggKwargNotTuple(KindOf(g.nodes[expr]))));
      }
      ghost var now := g.nodes;
      var parsedExpr := ParseNameTuple(g, expr);
      if parsedExpr.Err? {
        assert AggKwargError(before, expr) == Some(parsedExpr.error);
        return Err(parsedExpr.error);
      }
      ghost var col := g.nodes[parsedExpr.value].args[0];
      AggAdvance(before, kwargs, i, cols, touched, now, col, g.nodes);
      NamesReadableAdvance(before, kwargs, i, cols, touched, now, col, g.nodes);
      AggExprsSnoc(before, kwargs, i, aggregateExpressions, parsedExpr.value);
      touched := touched + Parts(before, expr);
      cols := cols + [col];
      aggregateExpressions := aggregateExpressions + [ColExpr(name, parsedExpr.value)];
    }
    assert kwargs[..|kwargs|] == kwargs;
    var agg := g.CreateNode(OperatorIR([df.op], BlockingAgg([], aggregateExpressions)));
    AggBuiltIntro(before, g.nodes, df, kwargs, agg, cols, aggregateExpressions);
    r := Ok(Dataframe(agg));
  }

  // ---------------------------------------------------------------------------
  // drop

  /** `DropHandler::Eval`. */
  method DropEval(g: IR, df: Dataframe, args: ParsedArgs) returns (r: Result<Dataframe>)
    requires g.Valid() && IsOperator(g.nodes, df.op) && HasArgs(g.nodes, args, {"columns"})
    modifies g
    ensures g.Valid()
    ensures var columns := args.named["columns"];
            r.Ok? <==> IsListOfStrings(old(g.nodes), columns)
    ensures var columns := args.named["columns"];
            !IsList(old(g.nodes), columns) ==>
              r == Err(NodeError(columns, DropColumnsNotList(KindOf(old(g.nodes)[columns])))) && g.nodes == old(g.nodes)
    ensures var columns := args.named["columns"];
            IsList(old(g.nodes), columns) && r.Err? ==>
              r.error == ParseStringsFromCollection(old(g.nodes), old(g.nodes)[columns].children).error
              && g.nodes == old(g.nodes)
    ensures var columns := args.named["columns"];
            r.Ok? ==> var elements := old(g.nodes)[columns].children;
                      && r.value.op !in old(g.nodes)
                      && g.nodes == (old(g.nodes) - ({columns} + Elems(elements)))[r.value.op :=
                           OperatorIR([df.op], Drop(StringsOf(old(g.nodes), elements)))]
  {
    var columnsArg := args.named["columns"];
    if !IsList(g.nodes, columnsArg) {
      return Err(NodeError(columnsArg, DropColumnsNotList(KindOf(g.nodes[columnsArg]))));
    }
    var elements := g.nodes[columnsArg].children;
    var columns := ParseStringsFromCollection(g.nodes, elements);
    if columns.Err? {
      return Err(columns.error);
    }
    var drop := g.CreateNode(OperatorIR([df.op], Drop(columns.value)));
    assert g.nodes[columnsArg] == old(g.nodes)[columnsArg];
    DeleteListOfStrings(g.nodes, columnsArg);
    g.DeleteNodeAndChildren(columnsArg);
    assert drop !in {columnsArg} + Elems(elements);
    assert g.nodes == (old(g.nodes) - ({columnsArg} + Elems(elements)))[drop := OperatorIR([df.op], Drop(columns.value))];
    return Ok(Dataframe(drop));
  }

  // ---------------------------------------------------------------------------
  // Range

  /** `RangeHandler::Eval`. */
  method RangeEval(g: IR, df: Dataframe, args: ParsedArgs) returns (r: Result<Dataframe>)
    requires g.Valid() && IsOperator(g.nodes, df.op) && HasArgs(g.nodes, args, {"start", "stop"})
    modifies g
    ensures g.Valid()
    ensures var start, stop := args.named["start"], args.named["stop"];
            r.Ok? <==> IsExpression(old(g.nodes), start) && IsExpression(old(g.nodes), stop)
    ensures var start := args.named["start"];
            !IsExpression(old(g.nodes), start) ==> r == Err(NodeError(start, StartNotExpression))
    ensures var start, stop := args.named["start"], args.named["stop"];
            IsExpression(old(g.nodes), start) && !IsExpression(old(g.nodes), stop) ==>
              r == Err(NodeError(stop, StopNotExpression))
    ensures r.Err? ==> g.nodes == old(g.nodes)
    ensures var start, stop := args.named["start"], args.named["stop"];
            r.Ok? ==> && r.value.op !in old(g.nodes)
                      && g.nodes == old(g.nodes)[r.value.op := OperatorIR([df.op], Range(start, stop))]
  {
    var startRepr, stopRepr := args.named["start"], args.named["stop"];
    if !IsExpression(g.nodes, startRepr) {
      return Err(NodeError(startRepr, StartNotExpression));
    }
    if !IsExpression(g.nodes, stopRepr) {
      return Err(NodeError(stopRepr, StopNotExpression));
    }
    var range := g.CreateNode(OperatorIR([df.op], Range(startRepr, stopRepr)));
    return Ok(Dataframe(range));
  }

  // ---------------------------------------------------------------------------
  // head (Limit)

  /** `LimitHandler::Eval`. */
  method LimitEval(g: IR, df: Dataframe, args: ParsedArgs) returns (r: Result<Dataframe>)
    requires g.Valid() && IsOperator(g.nodes, df.op) && HasArgs(g.nodes, args, {"n"})
    modifies g
    ensures g.Valid()
    ensures r.Ok? <==> IsInt(old(g.nodes), args.named["n"])
    ensures r.Err? ==> r.error == NodeError(args.named["n"], LimitNotInt) && g.nodes == old(g.nodes)
    ensures var n := args.named["n"];
            r.Ok? ==> && r.value.op !in old(g.nodes)
                      && g.nodes == (old(g.nodes) - {n})[r.value.op := OperatorIR([df.op], Limit(old(g.nodes)[n].val))]
  {
    var rowsNode := args.named["n"];
    if !IsInt(g.nodes, rowsNode) {
      return Err(NodeError(rowsNode, LimitNotInt));
    }
    var limitValue := g.nodes[rowsNode].val;
    var limit := g.CreateNode(OperatorIR([df.op], Limit(limitValue)));
    g.DeleteNode(rowsNode);
    assert g.nodes == (old(g.nodes) - {rowsNode})[limit := OperatorIR([df.op], Limit(limitValue))];
    return Ok(Dataframe(limit));
  }

  // ---------------------------------------------------------------------------
  // __getitem__ (Map or Filter)

  /**
   * `after` holds the Map node `m` that keeps the named columns: parent
   * `[df.op]`, `keep_input_columns` false, and one output expression per
   * name, in order, each a fresh Column at parent index 0; nothing else
   * was added or removed.
   */
  ghost predicate KeepBuilt(before: map<NodeId, Node>, after: map<NodeId, Node>, df: Dataframe,
                            key: NodeId, m: NodeId)
  {
    && IsListOfStrings(before, key)
    && var names := StringsOf(before, before[key].children);
    && m !in before && m in after
    && after[m].OperatorIR? && after[m].parents == [df.op]
    && after[m].op.Map? && !after[m].op.keepInputColumns
    && |after[m].op.expressions| == |names|
    && (forall i :: 0 <= i < |names| ==> after[m].op.expressions[i].name == names[i])
    && FreshColumns(before, after, ExprIds(after[m].op.expressions), names, 0)
    && after.Keys == before.Keys + Elems(ExprIds(after[m].op.expressions)) + {m}
  }

  /**
   * Adding the Map `m` over the Columns `cols`, one per listed name, to a
   * graph that gained exactly those Columns builds what `KeepBuilt` states.
   */
  lemma KeepBuiltIntro(before: map<NodeId, Node>, built: map<NodeId, Node>, after: map<NodeId, Node>,
                       df: Dataframe, key: NodeId, m: NodeId, exprs: seq<ColExpr>, cols: seq<NodeId>)
    requires IsListOfStrings(before, key)
    requires var names := StringsOf(before, before[key].children);
             && |exprs| == |names| && |cols| == |names|
             && (forall k :: 0 <= k < |names| ==> exprs[k] == ColExpr(names[k], cols[k]))
             && FreshColumns(before, built, cols, names, 0)
    requires built.Keys == before.Keys + Elems(cols)
    requires m !in built && after == built[m := OperatorIR([df.op], Map(exprs, false))]
    ensures KeepBuilt(before, after, df, key, m)
  {
    var names := StringsOf(before, before[key].children);
    assert ExprIds(exprs) == cols;
    assert Extends(built, after);
    FreshColumnsGrow(before, built, before, after, cols, names, 0);
  }

  /** `SubscriptHandler::Eval`. */
  method SubscriptEval(g: IR, df: Dataframe, args: ParsedArgs) returns (r: Result<Dataframe>)
    requires g.Valid() && IsOperator(g.nodes, df.op) && HasArgs(g.nodes, args, {"key"})
    modifies g
    ensures g.Valid() && Extends(old(g.nodes), g.nodes)
    ensures var key := args.named["key"];
            !IsExpression(old(g.nodes), key) ==>
              r == Err(NodeError(key, SubscriptNotExpression(KindOf(old(g.nodes)[key])))) && g.nodes == old(g.nodes)
    ensures var key := args.named["key"];
            IsList(old(g.nodes), key) ==>
              && (r.Ok? <==> IsListOfStrings(old(g.nodes), key))
              && (r.Err? ==> r.error == ParseStringsFromCollection(old(g.nodes), old(g.nodes)[key].children).error
                             && g.nodes == old(g.nodes))
              && (r.Ok? ==> KeepBuilt(old(g.nodes), g.nodes, df, key, r.value.op))
    ensures var key := args.named["key"];
            IsExpression(old(g.nodes), key) && !IsList(old(g.nodes), key) ==>
              && r.Ok? && r.value.op !in old(g.nodes)
              && g.nodes == old(g.nodes)[r.value.op := OperatorIR([df.op], Filter(key))]
  {
    var key := args.named["key"];
    if !IsExpression(g.nodes, key) {
      return Err(NodeError(key, SubscriptNotExpression(KindOf(g.nodes[key]))));
    }
    if IsList(g.nodes, key) {
      r := EvalKeep(g, df, key);
      return;
    }
    r := EvalFilter(g, df, key);
  }

  /** `SubscriptHandler::EvalFilter`: the Filter adopts the key expression as it is. */
  method EvalFilter(g: IR, df: Dataframe, expr: NodeId) returns (r: Result<Dataframe>)
    requires g.Valid()
    modifies g
    ensures g.Valid()
    ensures r.Ok? && r.value.op !in old(g.nodes)
    ensures g.nodes == old(g.nodes)[r.value.op := OperatorIR([df.op], Filter(expr))]
  {
    var filter := g.CreateNode(OperatorIR([df.op], Filter(expr)));
    return Ok(Dataframe(filter));
  }

  /** `SubscriptHandler::EvalKeep`: a Map that keeps exactly the listed columns. */
  method EvalKeep(g: IR, df: Dataframe, key: NodeId) returns (r: Result<Dataframe>)
    requires g.Valid() && Resolved(g.nodes, key) && IsList(g.nodes, key)
    modifies g
    ensures g.Valid() && Extends(old(g.nodes), g.nodes)
    ensures r.Ok? <==> IsListOfStrings(old(g.nodes), key)
    ensures r.Err? ==> r.error == ParseStringsFromCollection(old(g.nodes), old(g.nodes)[key].children).error
                       && g.nodes == old(g.nodes)
    ensures r.Ok? ==> KeepBuilt(old(g.nodes), g.nodes, df, key, r.value.op)
  {
    var keepColumnNames := ParseStringsFromCollection(g.nodes, g.nodes[key].children);
    if keepColumnNames.Err? {
      return Err(keepColumnNames.error);
    }
    var names := keepColumnNames.value;
    var keepExprs: seq<ColExpr> := [];
    ghost var cols: seq<NodeId> := [];
    for i := 0 to |names|
      invariant g.Valid() && Extends(old(g.nodes), g.nodes)
      invariant |keepExprs| == i && |cols| == i
      invariant forall k :: 0 <= k < i ==> keepExprs[k] == ColExpr(names[k], cols[k])
      invariant FreshColumns(old(g.nodes), g.nodes, cols, names[..i], 0)
      invariant g.nodes.Keys == old(g.nodes).Keys + Elems(cols)
    {
      ghost var now := g.nodes;
      var keepCol := g.CreateNode(ColumnIR(names[i], 0));
      FreshColumnsSnoc(old(g.nodes), now, cols, names, i, 0, keepCol);
      keepExprs := keepExprs + [ColExpr(names[i], keepCol)];
      cols := cols + [keepCol];
    }
    assert names[..|names|] == names;
    ghost var built := g.nodes;
    var map_ := g.CreateNode(OperatorIR([df.op], Map(keepExprs, false)));
    KeepBuiltIntro(old(g.nodes), built, g.nodes, df, key, map_, keepExprs, cols);
    return Ok(Dataframe(map_));
  }

  // ---------------------------------------------------------------------------
  // groupby

  /** `GroupByHandler::ParseByFunction`: Columns at parent index 0 for a string or a list of strings. */
  method ParseByFunction(g: IR, byArg: NodeId) returns (r: Result<seq<NodeId>>)
    requires g.Valid() && Resolved(g.nodes, byArg)
    modifies g
    ensures g.Valid() && Extends(old(g.nodes), g.nodes)
    ensures r.Ok? <==> IsLabels(old(g.nodes), byArg)
    ensures r.Err? ==> r.error == NodeError(byArg, ByNotLabels) && g.nodes == old(g.nodes)
    ensures r.Ok? ==> FreshColumns(old(g.nodes), g.nodes, r.value, LabelNames(old(g.nodes), byArg), 0)
    ensures r.Ok? ==> g.nodes.Keys == old(g.nodes).Keys + Elems(r.value)
  {
    if !IsListOfStrings(g.nodes, byArg) && !IsString(g.nodes, byArg) {
      return Err(NodeError(byArg, ByNotLabels));
    } else if IsString(g.nodes, byArg) {
      var col := g.CreateNode(ColumnIR(g.nodes[byArg].str, 0));
      return Ok([col]);
    }
    var columnNames := ParseStringsFromCollection(g.nodes, g.nodes[byArg].children).value;
    var columns: seq<NodeId> := [];
    for i := 0 to |columnNames|
      invariant g.Valid() && Extends(old(g.nodes), g.nodes)
      invariant FreshColumns(old(g.nodes), g.nodes, columns, columnNames[..i], 0)
      invariant g.nodes.Keys == old(g.nodes).Keys + Elems(columns)
    {
      ghost var now := g.nodes;
      var col := g.CreateNode(ColumnIR(columnNames[i], 0));
      FreshColumnsSnoc(old(g.nodes), now, columns, columnNames, i, 0, col);
      columns := columns + [col];
    }
    assert columnNames[..|columnNames|] == columnNames;
    return Ok(columns);
  }

  /** `GroupByHandler::Eval`. */
  method GroupByEval(g: IR, df: Dataframe, args: ParsedArgs) returns (r: Result<Dataframe>)
    requires g.Valid() && IsOperator(g.nodes, df.op) && HasArgs(g.nodes, args, {"by"})
    modifies g
    ensures g.Valid() && Extends(old(g.nodes), g.nodes)
    ensures var byArg := args.named["by"];
            r.Ok? <==> IsLabels(old(g.nodes), byArg)
    ensures r.Err? ==> r.error == NodeError(args.named["by"], ByNotLabels) && g.nodes == old(g.nodes)
    ensures var byArg := args.named["by"];
            r.Ok? ==> var gb := r.value.op;
                      && IsLabels(old(g.nodes), byArg)
                      && gb !in old(g.nodes) && gb in g.nodes
                      && g.nodes[gb].OperatorIR? && g.nodes[gb].parents == [df.op] && g.nodes[gb].op.GroupBy?
                      && FreshColumns(old(g.nodes), g.nodes, g.nodes[gb].op.groups, LabelNames(old(g.nodes), byArg), 0)
                      && g.nodes.Keys == old(g.nodes).Keys + Elems(g.nodes[gb].op.groups) + {gb}
  {
    var groups := ParseByFunction(g, args.named["by"]);
    if groups.Err? {
      return Err(groups.error);
    }
    var groupBy := g.CreateNode(OperatorIR([df.op], GroupBy(groups.value)));
    return Ok(Dataframe(groupBy));
  }
}
