/**
  A small stand-in for the parser's syntax tree, on which the contexts are
  built. A node has a type tag and an ordered list of child slots; like the
  parser's children, a slot holds nothing (`nil`), a symbol, or a sub-node.

  The queries below (`FindNodes`, `EachNode`, the method and argument
  accessors) stand in for the syntax-tree extensions the contexts call. They
  are simple structural definitions, not a reproduction of the parser.
*/
module Ast {
  import opened Wrappers
  import Seqs

  datatype NodeType =
    | Def | Defs | Casgn | Class | Module
    | Args | Arg | Optarg | Restarg | Kwarg | Kwoptarg | Kwrestarg | Blockarg
    | Lvar | Zsuper | Send | Block | Const
    | OtherType(name: string)

  datatype Slot = Empty | Sym(name: string) | Sub(node: Node)

  datatype Node = Node(kind: NodeType, slots: seq<Slot>)

  // ---------------------------------------------------------------------------
  // Size and nesting

  /** Number of nodes in the tree rooted at `n`. */
  function Size(n: Node): (r: nat)
    ensures r >= 1
    decreases n, 1
  {
    1 + SizeFrom(n, 0)
  }

  function SizeFrom(n: Node, i: nat): nat
    decreases n, 0, |n.slots| - i
  {
    if i >= |n.slots| then 0
    else (if n.slots[i].Sub? then Size(n.slots[i].node) else 0) + SizeFrom(n, i + 1)
  }

  /**
    `d` is `n` itself or lies below it, never entering a child whose type is
    in `skip` (the root itself is not checked).
  */
  ghost predicate Within(d: Node, n: Node, skip: set<NodeType>)
    decreases n
  {
    d == n ||
    exists i :: 0 <= i < |n.slots| && n.slots[i].Sub? && n.slots[i].node.kind !in skip &&
                Within(d, n.slots[i].node, skip)
  }

  /** `d` lies strictly below `n`. */
  ghost predicate NestedIn(d: Node, n: Node)
  {
    exists i :: 0 <= i < |n.slots| && n.slots[i].Sub? && Within(d, n.slots[i].node, {})
  }

  lemma {:induction false} SizeFromCovers(n: Node, i: nat, j: nat)
    requires i <= j < |n.slots| && n.slots[j].Sub?
    ensures Size(n.slots[j].node) <= SizeFrom(n, i)
    decreases j - i
  {
    if i < j {
      SizeFromCovers(n, i + 1, j);
    }
  }

  lemma {:induction false} WithinIsNoLarger(d: Node, n: Node, skip: set<NodeType>)
    requires Within(d, n, skip)
    ensures Size(d) <= Size(n)
    decreases n
  {
    if d != n {
      var i :| 0 <= i < |n.slots| && n.slots[i].Sub? && n.slots[i].node.kind !in skip &&
               Within(d, n.slots[i].node, skip);
      WithinIsNoLarger(d, n.slots[i].node, skip);
      SizeFromCovers(n, 0, i);
    }
  }

  /** A node nested inside another is strictly smaller: nesting is well founded. */
  lemma NestedIsSmaller(d: Node, n: Node)
    requires NestedIn(d, n)
    ensures Size(d) < Size(n)
  {
    var i :| 0 <= i < |n.slots| && n.slots[i].Sub? && Within(d, n.slots[i].node, {});
    WithinIsNoLarger(d, n.slots[i].node, {});
    SizeFromCovers(n, 0, i);
  }

  /** A child slot's node, and anything nested in it, is nested in the parent. */
  lemma NestedViaChild(d: Node, n: Node, i: nat)
    requires i < |n.slots| && n.slots[i].Sub?
    requires d == n.slots[i].node || NestedIn(d, n.slots[i].node)
    ensures NestedIn(d, n)
  {
    var c := n.slots[i].node;
    if d != c {
      var j :| 0 <= j < |c.slots| && c.slots[j].Sub? && Within(d, c.slots[j].node, {});
      assert Within(d, c, {});
    }
    assert Within(d, c, {});
  }

  lemma {:induction false} WithinTransitive(d: Node, m: Node, n: Node)
    requires Within(d, m, {}) && Within(m, n, {})
    ensures Within(d, n, {})
    decreases n
  {
    if m != n {
      var i :| 0 <= i < |n.slots| && n.slots[i].Sub? && Within(m, n.slots[i].node, {});
      WithinTransitive(d, m, n.slots[i].node);
    }
  }

  /** Nesting is transitive. */
  lemma NestedTransitive(d: Node, m: Node, n: Node)
    requires NestedIn(d, m) && NestedIn(m, n)
    ensures NestedIn(d, n)
  {
    var i :| 0 <= i < |n.slots| && n.slots[i].Sub? && Within(m, n.slots[i].node, {});
    assert Within(d, m, {});
    WithinTransitive(d, m, n.slots[i].node);
  }

  // ---------------------------------------------------------------------------
  // find_nodes: search that reports target nodes and is cut at ignored ones

  /**
    The nodes of a type in `targets` found below `n`: a node whose type is in
    `ignoring` is not searched at all, and a target node is reported without
    searching inside it. Results are in source order.
  */
  function FindNodes(n: Node, targets: set<NodeType>, ignoring: set<NodeType>): seq<Node>
    decreases n, 1
  {
    if n.kind in ignoring then []
    else if n.kind in targets then [n]
    else FindFrom(n, 0, targets, ignoring)
  }

  function FindFrom(n: Node, i: nat, targets: set<NodeType>, ignoring: set<NodeType>): seq<Node>
    decreases n, 0, |n.slots| - i
  {
    if i >= |n.slots| then []
    else (if n.slots[i].Sub? then FindNodes(n.slots[i].node, targets, ignoring) else [])
         + FindFrom(n, i + 1, targets, ignoring)
  }

  /**
    `d` is reached from `n` by a path on which no node has a type in `stop`,
    except possibly `d` itself.
  */
  ghost predicate Exposed(d: Node, n: Node, stop: set<NodeType>)
    decreases n
  {
    d == n ||
    (n.kind !in stop &&
     exists i :: 0 <= i < |n.slots| && n.slots[i].Sub? && Exposed(d, n.slots[i].node, stop))
  }

  /**
    What `FindNodes` reports, stated without the search: exactly the target
    nodes that are not ignored and are reached without passing through an
    ignored or a target node.
  */
  lemma {:induction false} FindNodesExactly(n: Node, targets: set<NodeType>, ignoring: set<NodeType>, d: Node)
    ensures d in FindNodes(n, targets, ignoring) <==>
            (Exposed(d, n, targets + ignoring) && d.kind in targets && d.kind !in ignoring)
    decreases n, 1
  {
    if n.kind !in ignoring && n.kind !in targets {
      FindFromExactly(n, 0, targets, ignoring, d);
      if Exposed(d, n, targets + ignoring) && d != n {
        var i :| 0 <= i < |n.slots| && n.slots[i].Sub? && Exposed(d, n.slots[i].node, targets + ignoring);
        FindNodesExactly(n.slots[i].node, targets, ignoring, d);
        assert FoundBelow(n, i, targets, ignoring, d) <==> d.kind in targets && d.kind !in ignoring;
      }
      if d in FindFrom(n, 0, targets, ignoring) {
        var i :| 0 <= i < |n.slots| && FoundBelow(n, i, targets, ignoring, d);
        FindNodesExactly(n.slots[i].node, targets, ignoring, d);
      }
    }
  }

  lemma {:induction false} FindFromExactly(n: Node, i: nat, targets: set<NodeType>, ignoring: set<NodeType>, d: Node)
    ensures d in FindFrom(n, i, targets, ignoring) <==>
            exists j :: i <= j < |n.slots| && FoundBelow(n, j, targets, ignoring, d)
    decreases |n.slots| - i
  {
    if i < |n.slots| {
      FindFromExactly(n, i + 1, targets, ignoring, d);
      FindFromStep(n, i, targets, ignoring, d);
      if d in FindFrom(n, i, targets, ignoring) {
        if !FoundBelow(n, i, targets, ignoring, d) {
          var j :| i + 1 <= j < |n.slots| && FoundBelow(n, j, targets, ignoring, d);
          assert i <= j;
        }
      } else {
        forall j | i <= j < |n.slots| ensures !FoundBelow(n, j, targets, ignoring, d) {
          if j != i {
            assert i + 1 <= j;
          }
        }
      }
    }
  }

  /** One step of `FindFrom`: slot `i` reports `d` or a later slot does. */
  lemma FindFromStep(n: Node, i: nat, targets: set<NodeType>, ignoring: set<NodeType>, d: Node)
    requires i < |n.slots|
    ensures d in FindFrom(n, i, targets, ignoring) <==>
            FoundBelow(n, i, targets, ignoring, d) || d in FindFrom(n, i + 1, targets, ignoring)
  {
  }

  /** The search below child slot `j` of `n` reports `d`. */
  ghost predicate FoundBelow(n: Node, j: nat, targets: set<NodeType>, ignoring: set<NodeType>, d: Node)
    requires j < |n.slots|
  {
    n.slots[j].Sub? && d in FindNodes(n.slots[j].node, targets, ignoring)
  }

  // ---------------------------------------------------------------------------
  // each_node / local_nodes / contains_nested_node?

  /**
    The nodes of type `k` at or below `n`, in pre-order, never entering a
    child whose type is in `ignoring`.
  */
  function EachNode(n: Node, k: NodeType, ignoring: set<NodeType>): seq<Node>
    decreases n, 1
  {
    (if n.kind == k then [n] else []) + EachFrom(n, 0, k, ignoring)
  }

  function EachFrom(n: Node, i: nat, k: NodeType, ignoring: set<NodeType>): seq<Node>
    decreases n, 0, |n.slots| - i
  {
    if i >= |n.slots| then []
    else (if n.slots[i].Sub? && n.slots[i].node.kind !in ignoring
          then EachNode(n.slots[i].node, k, ignoring) else [])
         + EachFrom(n, i + 1, k, ignoring)
  }

  /** What `EachNode` yields, stated without the traversal. */
  lemma {:induction false} EachNodeExactly(n: Node, k: NodeType, ignoring: set<NodeType>, d: Node)
    ensures d in EachNode(n, k, ignoring) <==> (d.kind == k && Within(d, n, ignoring))
    decreases n, 1
  {
    EachFromExactly(n, 0, k, ignoring, d);
    if d in EachFrom(n, 0, k, ignoring) {
      var i :| 0 <= i < |n.slots| && EnteredYields(n, i, k, ignoring, d);
      EachNodeExactly(n.slots[i].node, k, ignoring, d);
    }
    if d != n && d.kind == k && Within(d, n, ignoring) {
      var i :| 0 <= i < |n.slots| && n.slots[i].Sub? && n.slots[i].node.kind !in ignoring &&
               Within(d, n.slots[i].node, ignoring);
      EachNodeExactly(n.slots[i].node, k, ignoring, d);
      assert EnteredYields(n, i, k, ignoring, d);
    }
  }

  lemma {:induction false} EachFromExactly(n: Node, i: nat, k: NodeType, ignoring: set<NodeType>, d: Node)
    ensures d in EachFrom(n, i, k, ignoring) <==>
            exists j :: i <= j < |n.slots| && EnteredYields(n, j, k, ignoring, d)
    decreases |n.slots| - i
  {
    if i < |n.slots| {
      EachFromExactly(n, i + 1, k, ignoring, d);
      EachFromStep(n, i, k, ignoring, d);
      if d in EachFrom(n, i, k, ignoring) {
        if !EnteredYields(n, i, k, ignoring, d) {
          var j :| i + 1 <= j < |n.slots| && EnteredYields(n, j, k, ignoring, d);
          assert i <= j;
        }
      } else {
        forall j | i <= j < |n.slots| ensures !EnteredYields(n, j, k, ignoring, d) {
          if j != i {
            assert i + 1 <= j;
          }
        }
      }
    }
  }

  /** One step of `EachFrom`: slot `i` yields `d` or a later slot does. */
  lemma EachFromStep(n: Node, i: nat, k: NodeType, ignoring: set<NodeType>, d: Node)
    requires i < |n.slots|
    ensures d in EachFrom(n, i, k, ignoring) <==>
            EnteredYields(n, i, k, ignoring, d) || d in EachFrom(n, i + 1, k, ignoring)
  {
  }

  /** Child slot `j` of `n` is entered by `EachNode` and yields `d`. */
  ghost predicate EnteredYields(n: Node, j: nat, k: NodeType, ignoring: set<NodeType>, d: Node)
    requires j < |n.slots|
  {
    n.slots[j].Sub? && n.slots[j].node.kind !in ignoring && d in EachNode(n.slots[j].node, k, ignoring)
  }

  /** The kinds a context's own local search never enters: nested classes and modules. */
  const ContextBoundaries: set<NodeType> := {Class, Module}

  /** Nodes of type `k` in this context's own span, not crossing into nested classes or modules. */
  function LocalNodes(n: Node, k: NodeType): (r: seq<Node>)
    ensures forall d :: d in r <==> d.kind == k && Within(d, n, ContextBoundaries)
  {
    forall d ensures d in EachNode(n, k, ContextBoundaries) <==> d.kind == k && Within(d, n, ContextBoundaries) {
      EachNodeExactly(n, k, ContextBoundaries, d);
    }
    EachNode(n, k, ContextBoundaries)
  }

  /** A node of type `k` occurs at or anywhere below `n`. */
  function ContainsNestedNode(n: Node, k: NodeType): (b: bool)
    ensures b <==> exists d :: Within(d, n, {}) && d.kind == k
  {
    var found := EachNode(n, k, {});
    if found != [] then
      EachNodeExactly(n, k, {}, found[0]);
      true
    else
      assert forall d :: Within(d, n, {}) && d.kind == k ==> d in found by {
        forall d | Within(d, n, {}) && d.kind == k ensures d in found {
          EachNodeExactly(n, k, {}, d);
        }
      }
      false
  }

  // ---------------------------------------------------------------------------
  // Accessors the contexts use

  /** `children.last`, or nothing for a node without children. */
  function LastChild(n: Node): Slot
  {
    if |n.slots| == 0 then Empty else n.slots[|n.slots| - 1]
  }

  /** The first symbol among `slots`. */
  function FirstSymbol(slots: seq<Slot>): (r: Option<string>)
    ensures r.Some? ==> Sym(r.value) in slots
    ensures r.None? ==> forall i :: 0 <= i < |slots| ==> !slots[i].Sym?
  {
    if slots == [] then None
    else if slots[0].Sym? then Some(slots[0].name)
    else FirstSymbol(slots[1..])
  }

  /** The sub-nodes among `slots`, in order. */
  function NodesOf(slots: seq<Slot>): (r: seq<Node>)
    ensures forall d :: d in r <==> Sub(d) in slots
  {
    if slots == [] then []
    else (if slots[0].Sub? then [slots[0].node] else []) + NodesOf(slots[1..])
  }

  /** A method definition's name: its first symbol child. */
  function MethodName(n: Node): string
  {
    match FirstSymbol(n.slots)
    case Some(s) => s
    case None => ""
  }

  /** The argument list of a method definition: its first `args` child. */
  function ArgsList(slots: seq<Slot>): (r: Option<Node>)
    ensures r.Some? ==> r.value.kind == Args && Sub(r.value) in slots
  {
    if slots == [] then None
    else if slots[0].Sub? && slots[0].node.kind == Args then Some(slots[0].node)
    else ArgsList(slots[1..])
  }

  /** `parameters`: every parameter node, in declaration order. */
  function Parameters(n: Node): seq<Node>
  {
    match ArgsList(n.slots)
    case Some(args) => NodesOf(args.slots)
    case None => []
  }

  /** `arguments`: the parameters without the block parameter. */
  function Arguments(n: Node): seq<Node>
  {
    Seqs.Select(Parameters(n), (p: Node) => p.kind != Blockarg)
  }

  /** `body`: a method definition's last child, when it is a node. */
  function Body(n: Node): Option<Node>
  {
    match LastChild(n)
    case Sub(b) => Some(b)
    case _ => None
  }

  /** A parameter's name, absent for an anonymous splat such as `*`. */
  function ParamName(p: Node): Option<string>
  {
    FirstSymbol(p.slots)
  }

  /** `plain_name`: the name as a string, empty when there is none. */
  function PlainName(p: Node): string
  {
    match ParamName(p)
    case Some(s) => s
    case None => ""
  }

  /** `anonymous_splat?`: a rest parameter without a name. */
  predicate AnonymousSplat(p: Node)
  {
    p.kind in {Restarg, Kwrestarg} && ParamName(p).None?
  }

  /** `marked_unused?`: the name starts with an underscore. */
  predicate MarkedUnused(p: Node)
  {
    |PlainName(p)| > 0 && PlainName(p)[0] == '_'
  }

  /** `optional_argument?`: a parameter with a default value. */
  predicate OptionalArgument(p: Node)
  {
    p.kind in {Optarg, Kwoptarg}
  }

  /** `var_name` of a local-variable read. */
  function VarName(n: Node): Option<string>
  {
    FirstSymbol(n.slots)
  }
}
