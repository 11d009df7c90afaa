/**
 * The IR graph store of the query compiler: an arena of nodes keyed by integer
 * ID. Operators and expressions refer to each other by ID only.
 *
 * The store's own implementation is not part of this model; `CreateNode`
 * promises only a fresh ID, and `DeleteNodeAndChildren` is specified by the
 * function `DeleteTree`.
 */
module IRGraph {

  type NodeId = nat

  /** The C++ `int64_t` that integer literals and row counts are held in. */
  newtype int64 = x: int | -0x8000_0000_0000_0000 <= x < 0x8000_0000_0000_0000

  /** A named output expression (the compiler's ColExpression). */
  datatype ColExpr = ColExpr(name: string, expr: NodeId)

  /** The operator-specific payload of an operator node. */
  datatype OpPayload =
    | OtherOperator  // an operator built outside the handlers modelled here (MemorySource, Union, ...)
    | Join(how: string, leftOn: seq<NodeId>, rightOn: seq<NodeId>, suffixes: seq<string>)
    | BlockingAgg(groups: seq<NodeId>, aggregates: seq<ColExpr>)
    | Drop(dropColumns: seq<string>)
    | Range(start: NodeId, stop: NodeId)
    | Limit(limitValue: int64)
    | Map(expressions: seq<ColExpr>, keepInputColumns: bool)
    | Filter(filterExpr: NodeId)
    | GroupBy(groups: seq<NodeId>)

  /** An IR node: an expression of one of the literal or compound kinds, or an operator. */
  datatype Node =
    | StringIR(str: string)
    | IntIR(val: int64)
    | FloatIR(fval: real)
    | ListIR(children: seq<NodeId>)
    | TupleIR(children: seq<NodeId>)
    | FuncIR(funcName: string, args: seq<NodeId>)
    | ColumnIR(colName: string, parentIndex: nat)
    | OperatorIR(parents: seq<NodeId>, op: OpPayload)

  /** What `type_string()` reports about a node, used in diagnostics. */
  datatype Kind = StringKind | IntKind | FloatKind | ListKind | TupleKind | FuncKind | ColumnKind | OperatorKind

  function KindOf(n: Node): Kind {
    match n
    case StringIR(_) => StringKind
    case IntIR(_) => IntKind
    case FloatIR(_) => FloatKind
    case ListIR(_) => ListKind
    case TupleIR(_) => TupleKind
    case FuncIR(_, _) => FuncKind
    case ColumnIR(_, _) => ColumnKind
    case OperatorIR(_, _) => OperatorKind
  }

  /** The expression nodes a node owns: collection elements and function arguments. */
  function Children(n: Node): seq<NodeId> {
    match n
    case ListIR(c) => c
    case TupleIR(c) => c
    case FuncIR(_, a) => a
    case _ => []
  }

  function Elems(s: seq<NodeId>): set<NodeId> {
    set x | x in s
  }

  // The atomic `Match` predicates, on a node ID of the graph `nodes`.

  predicate IsString(nodes: map<NodeId, Node>, id: NodeId) { id in nodes && nodes[id].StringIR? }
  predicate IsInt(nodes: map<NodeId, Node>, id: NodeId) { id in nodes && nodes[id].IntIR? }
  predicate IsFloat(nodes: map<NodeId, Node>, id: NodeId) { id in nodes && nodes[id].FloatIR? }
  predicate IsList(nodes: map<NodeId, Node>, id: NodeId) { id in nodes && nodes[id].ListIR? }
  predicate IsTuple(nodes: map<NodeId, Node>, id: NodeId) { id in nodes && nodes[id].TupleIR? }
  predicate IsFunc(nodes: map<NodeId, Node>, id: NodeId) { id in nodes && nodes[id].FuncIR? }
  predicate IsOperator(nodes: map<NodeId, Node>, id: NodeId) { id in nodes && nodes[id].OperatorIR? }
  predicate IsExpression(nodes: map<NodeId, Node>, id: NodeId) { id in nodes && !nodes[id].OperatorIR? }

  predicate AllStrings(nodes: map<NodeId, Node>, ids: seq<NodeId>) {
    forall i :: 0 <= i < |ids| ==> IsString(nodes, ids[i])
  }

  /** `Match(node, ListWithChildren(String()))`. */
  predicate IsListOfStrings(nodes: map<NodeId, Node>, id: NodeId) {
    IsList(nodes, id) && AllStrings(nodes, nodes[id].children)
  }

  /** `Match(node, CollectionWithChildren(String()))`: a list or a tuple of strings. */
  predicate IsCollectionOfStrings(nodes: map<NodeId, Node>, id: NodeId) {
    (IsList(nodes, id) || IsTuple(nodes, id)) && AllStrings(nodes, nodes[id].children)
  }

  /** A label argument: a single string or a list of strings. */
  predicate IsLabels(nodes: map<NodeId, Node>, id: NodeId) {
    IsString(nodes, id) || IsListOfStrings(nodes, id)
  }

  /** The string values of a sequence of string nodes. */
  function StringsOf(nodes: map<NodeId, Node>, ids: seq<NodeId>): seq<string>
    requires AllStrings(nodes, ids)
  {
    seq(|ids|, i requires 0 <= i < |ids| => nodes[ids[i]].str)
  }

  /** The column names a label argument stands for. */
  function LabelNames(nodes: map<NodeId, Node>, id: NodeId): seq<string>
    requires IsLabels(nodes, id)
  {
    if IsString(nodes, id) then [nodes[id].str] else StringsOf(nodes, nodes[id].children)
  }

  /** An argument node that is live, with its children live too. */
  predicate Resolved(nodes: map<NodeId, Node>, id: NodeId) {
    id in nodes && forall c :: c in Children(nodes[id]) ==> c in nodes
  }

  /** The expression IDs of a sequence of named expressions. */
  function ExprIds(es: seq<ColExpr>): seq<NodeId> {
    seq(|es|, i requires 0 <= i < |es| => es[i].expr)
  }

  /** Every node of `before` is still in `after`, unchanged. */
  ghost predicate Extends(before: map<NodeId, Node>, after: map<NodeId, Node>) {
    forall k :: k in before ==> k in after && after[k] == before[k]
  }

  /**
   * `cols` are fresh, pairwise distinct Column nodes of `after`, the i-th
   * naming `names[i]` and referring to the parent at `parentIndex`.
   */
  ghost predicate FreshColumns(before: map<NodeId, Node>, after: map<NodeId, Node>,
                               cols: seq<NodeId>, names: seq<string>, parentIndex: nat) {
    && |cols| == |names|
    && (forall i :: 0 <= i < |cols| ==>
          cols[i] !in before && cols[i] in after && after[cols[i]] == ColumnIR(names[i], parentIndex))
    && (forall i, j :: 0 <= i < j < |cols| ==> cols[i] != cols[j])
  }

  lemma ExtendsTrans(a: map<NodeId, Node>, b: map<NodeId, Node>, c: map<NodeId, Node>)
    requires Extends(a, b) && Extends(b, c)
    ensures Extends(a, c)
  {
  }

  /** What the `Match` predicates say about a resolved node does not change as the graph grows. */
  lemma MatchStable(before: map<NodeId, Node>, after: map<NodeId, Node>, id: NodeId)
    requires Resolved(before, id) && Extends(before, after)
    ensures Resolved(after, id) && after[id] == before[id]
    ensures IsLabels(after, id) == IsLabels(before, id)
    ensures IsCollectionOfStrings(after, id) == IsCollectionOfStrings(before, id)
    ensures IsLabels(before, id) ==> LabelNames(after, id) == LabelNames(before, id)
    ensures IsCollectionOfStrings(before, id) ==>
              StringsOf(after, before[id].children) == StringsOf(before, before[id].children)
  {
    if before[id].ListIR? || before[id].TupleIR? {
      assert forall i :: 0 <= i < |before[id].children| ==> before[id].children[i] in Children(before[id]);
    }
  }

  /** Fresh Columns stay fresh as the graph grows and as the reference graph shrinks. */
  lemma FreshColumnsGrow(before: map<NodeId, Node>, mid: map<NodeId, Node>, midBefore: map<NodeId, Node>,
                         after: map<NodeId, Node>, cols: seq<NodeId>, names: seq<string>, parentIndex: nat)
    requires FreshColumns(midBefore, mid, cols, names, parentIndex)
    requires before.Keys <= midBefore.Keys && Extends(mid, after)
    ensures FreshColumns(before, after, cols, names, parentIndex)
  {
  }

  /**
   * Storing one more fresh Column extends a run of fresh Columns by one,
   * and the graph still holds exactly the old nodes and those Columns.
   */
  lemma FreshColumnsSnoc(before: map<NodeId, Node>, now: map<NodeId, Node>, cols: seq<NodeId>, names: seq<string>,
                         i: nat, parentIndex: nat, col: NodeId)
    requires i < |names| && FreshColumns(before, now, cols, names[..i], parentIndex)
    requires Extends(before, now) && now.Keys == before.Keys + Elems(cols) && col !in now
    ensures var next := now[col := ColumnIR(names[i], parentIndex)];
            && FreshColumns(before, next, cols + [col], names[..i + 1], parentIndex)
            && Extends(before, next) && next.Keys == before.Keys + Elems(cols + [col])
  {
    assert names[..i + 1] == names[..i] + [names[i]];
    assert Elems(cols + [col]) == Elems(cols) + {col};
  }

  /**
   * Two batches of fresh Columns added one after the other, then one more
   * node `n` at `id`: both batches are fresh Columns of the final graph,
   * which holds exactly the old nodes, both batches and `id`.
   */
  lemma FreshColumnsThenNode(before: map<NodeId, Node>, first: map<NodeId, Node>, second: map<NodeId, Node>,
                             cols1: seq<NodeId>, names1: seq<string>, index1: nat,
                             cols2: seq<NodeId>, names2: seq<string>, index2: nat, id: NodeId, n: Node)
    requires Extends(before, first) && first.Keys == before.Keys + Elems(cols1)
    requires FreshColumns(before, first, cols1, names1, index1)
    requires Extends(first, second) && second.Keys == first.Keys + Elems(cols2)
    requires FreshColumns(first, second, cols2, names2, index2)
    requires id !in second
    ensures var after := second[id := n];
            && id !in before && Extends(before, after)
            && FreshColumns(before, after, cols1, names1, index1)
            && FreshColumns(before, after, cols2, names2, index2)
            && after.Keys == before.Keys + Elems(cols1) + Elems(cols2) + {id}
  {
    var after := second[id := n];
    ExtendsTrans(before, first, second);
    assert Extends(second, after);
    ExtendsTrans(before, second, after);
    FreshColumnsGrow(before, first, before, after, cols1, names1, index1);
    FreshColumnsGrow(before, second, first, after, cols2, names2, index2);
  }

  /**
   * The graph left after deleting every node of `pending` together with,
   * transitively, the children it owns (the specification of
   * `DeleteNodeAndChildren`).
   */
  function DeleteTree(nodes: map<NodeId, Node>, pending: seq<NodeId>): (r: map<NodeId, Node>)
    ensures r.Keys <= nodes.Keys
    ensures forall k :: k in r ==> r[k] == nodes[k]
    ensures forall i :: 0 <= i < |pending| ==> pending[i] !in r
    decreases |nodes.Keys|, |pending|
  {
    if pending == [] then nodes
    else if pending[0] !in nodes then DeleteTree(nodes, pending[1..])
    else
      var rest := nodes - {pending[0]};
      var owned := Children(nodes[pending[0]]);
      assert rest.Keys == nodes.Keys - {pending[0]};
      assert forall i :: 0 < i < |pending| ==> (owned + pending[1..])[|owned| + i - 1] == pending[i];
      DeleteTree(rest, owned + pending[1..])
  }

  /** Deletion is closed under ownership: a deleted node's children are gone too. */
  lemma {:induction false} DeleteTreeClosed(nodes: map<NodeId, Node>, pending: seq<NodeId>)
    ensures forall k, c :: k in nodes && k !in DeleteTree(nodes, pending) && c in Children(nodes[k])
              ==> c !in DeleteTree(nodes, pending)
  {
    if pending == [] {
    } else if pending[0] !in nodes {
      DeleteTreeClosed(nodes, pending[1..]);
    } else {
      var x := pending[0];
      var rest := nodes - {x};
      var next := Children(nodes[x]) + pending[1..];
      DeleteTreeClosed(rest, next);
      var r := DeleteTree(rest, next);
      assert r == DeleteTree(nodes, pending);
      forall k, c | k in nodes && k !in r && c in Children(nodes[k]) ensures c !in r {
        if k == x {
          var i :| 0 <= i < |Children(nodes[x])| && Children(nodes[x])[i] == c;
          assert next[i] == c;
        } else {
          assert k in rest && rest[k] == nodes[k];
        }
      }
    }
  }

  /** Deleting nodes that own no children removes exactly those nodes. */
  lemma {:induction false} DeleteTreeOfLeaves(nodes: map<NodeId, Node>, pending: seq<NodeId>)
    requires forall i :: 0 <= i < |pending| && pending[i] in nodes ==> Children(nodes[pending[i]]) == []
    ensures DeleteTree(nodes, pending) == nodes - Elems(pending)
  {
    if pending == [] {
      assert nodes - Elems(pending) == nodes;
    } else if pending[0] !in nodes {
      DeleteTreeOfLeaves(nodes, pending[1..]);
      assert nodes - Elems(pending[1..]) == nodes - Elems(pending);
    } else {
      var x := pending[0];
      var rest := nodes - {x};
      assert Children(nodes[x]) + pending[1..] == pending[1..];
      forall i | 0 <= i < |pending[1..]| && pending[1..][i] in rest
        ensures Children(rest[pending[1..][i]]) == []
      {
        assert pending[1..][i] == pending[i + 1];
      }
      DeleteTreeOfLeaves(rest, pending[1..]);
      assert rest - Elems(pending[1..]) == nodes - Elems(pending);
    }
  }

  /**
   * Deleting a list of strings together with its children removes exactly
   * the list node and its string elements.
   */
  lemma DeleteListOfStrings(nodes: map<NodeId, Node>, list: NodeId)
    requires IsListOfStrings(nodes, list)
    ensures DeleteTree(nodes, [list]) == nodes - ({list} + Elems(nodes[list].children))
  {
    var children := nodes[list].children;
    var rest := nodes - {list};
    assert DeleteTree(nodes, [list]) == DeleteTree(rest, children + []);
    assert children + [] == children;
    forall i | 0 <= i < |children| && children[i] in rest ensures Children(rest[children[i]]) == [] {
      assert IsString(nodes, children[i]);
    }
    DeleteTreeOfLeaves(rest, children);
    assert rest - Elems(children) == nodes - ({list} + Elems(children));
  }

  /** The graph store. */
  class IR {
    var nodes: map<NodeId, Node>
    var nextId: NodeId
    /** Every ID ever handed out; IDs are never reused, even after deletion. */
    ghost var used: set<NodeId>

    /** Live nodes have allocated IDs, and the counter stays above every allocated ID. */
    ghost predicate Valid()
      reads this
    {
      && nodes.Keys <= used
      && forall id :: id in used ==> id < nextId
    }

    constructor ()
      ensures Valid() && nodes == map[]
    {
      nodes := map[];
      nextId := 0;
      used := {};
    }

    /** `CreateNode<Kind>(...)`: store the node under an ID never used before. */
    method CreateNode(n: Node) returns (id: NodeId)
      requires Valid()
      modifies this
      ensures Valid()
      ensures id !in old(used) && used == old(used) + {id}
      ensures nodes == old(nodes)[id := n]
    {
      id := nextId;
      nodes := nodes[id := n];
      nextId := nextId + 1;
      used := used + {id};
    }

    /** `DeleteNode(id)`: remove one node. */
    method DeleteNode(id: NodeId)
      requires Valid() && id in nodes
      modifies this
      ensures Valid() && used == old(used)
      ensures nodes == old(nodes) - {id}
    {
      nodes := nodes - {id};
    }

    /** `DeleteNodeAndChildren(id)`: remove a node and the expression tree it owns. */
    method DeleteNodeAndChildren(id: NodeId)
      requires Valid() && id in nodes
      modifies this
      ensures Valid() && used == old(used)
      ensures nodes == DeleteTree(old(nodes), [id])
    {
      nodes := DeleteTree(nodes, [id]);
    }

    /** `FuncIR::AddArg`: append an argument to a function node. */
    method AddArg(func: NodeId, arg: NodeId)
      requires Valid() && IsFunc(nodes, func)
      modifies this
      ensures Valid() && used == old(used)
      ensures nodes == old(nodes)[func := FuncIR(old(nodes)[func].funcName, old(nodes)[func].args + [arg])]
    {
      nodes := nodes[func := FuncIR(nodes[func].funcName, nodes[func].args + [arg])];
    }
  }
}
