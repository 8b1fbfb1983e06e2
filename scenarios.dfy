/**
  Worked examples of the context tree, in the manner of a client: which
  visibility each method ends up with under named and unnamed directives, and
  which call sites `InstanceMethodCalls` reports.
*/
module Scenarios {
  import Wrappers
  import opened Ast
  import opened Context
  import opened MethodContext
  import Seqs

  function DefNode(name: string, body: Slot): (r: Node)
    ensures MethodName(r) == name && r.kind == Def && LastChild(r) == body
  {
    Node(Def, [Sym(name), Sub(Node(Args, [])), body])
  }

  function CallNode(name: string): Node
  {
    Node(NodeType.Send, [Empty, Sym(name)])
  }

  /** The syntax nodes of `class Foo; def a; end; def b; end; end`. */
  method TwoMethodNodes() returns (foo: Node, defA: Node, defB: Node)
    ensures MethodName(defA) == "a" && MethodName(defB) == "b"
    ensures NestedIn(defA, foo) && NestedIn(defB, foo)
  {
    defA := DefNode("a", Empty);
    defB := DefNode("b", Empty);
    var body := Node(OtherType("begin"), [Sub(defA), Sub(defB)]);
    foo := Node(NodeType.Class, [Sub(Node(Const, [Empty, Sym("Foo")])), Empty, Sub(body)]);
    NestedViaChild(defA, body, 0);
    NestedViaChild(defA, foo, 2);
    NestedViaChild(defB, body, 1);
    NestedViaChild(defB, foo, 2);
  }

  /** `def f(pa, pa)`: the parameter list holds `pa` twice. */
  lemma RepeatedParameterList(pa: Node, f: Node)
    requires f == Node(Def, [Sym("f"), Sub(Node(Args, [Sub(pa), Sub(pa)])), Empty])
    ensures Parameters(f) == [pa, pa]
  {
    var args := Node(Args, [Sub(pa), Sub(pa)]);
    assert f.slots[1..] == [Sub(args), Empty];
    assert ArgsList(f.slots) == ArgsList(f.slots[1..]) == Wrappers.Some(args);
    assert args.slots[1..] == [Sub(pa)] && [Sub(pa)][1..] == [];
    assert NodesOf(args.slots) == [pa] + NodesOf([Sub(pa)]) == [pa, pa];
  }

  /**
    `def f(_a = 1, _a = 1)`: a repeated optional parameter `pa` gives one
    default assignment per occurrence.
  */
  lemma RepeatedOptionalParameters(pa: Node, f: Node)
    requires pa.kind == Optarg && f == Node(Def, [Sym("f"), Sub(Node(Args, [Sub(pa), Sub(pa)])), Empty])
    ensures DefaultAssignmentsOf(f) == [pa.slots, pa.slots]
  {
    RepeatedParameterList(pa, f);
    assert [pa, pa][1..] == [pa] && [pa][1..] == [];
    assert Seqs.Select([pa, pa], OptionalArgument) == [pa, pa];
    OptionalSelected([pa, pa]);
    assert SlotsOf([pa.slots, pa.slots], [pa, pa]);
    DefaultAssignmentsDetermined(f, [pa.slots, pa.slots]);
  }

  /** `class Foo; def a; end; def b; end; end`, with the two contexts made but not yet appended. */
  method TwoMethodClass() returns (m: CodeContext, a: CodeContext, b: CodeContext)
    ensures m.kind == ContextKind.Module && m.tree.Closed() && m in m.tree.contexts && m.children == []
    ensures a.kind == ContextKind.Method && a.parent == m && a in m.tree.contexts && a.Name() == "a"
    ensures b.kind == ContextKind.Method && b.parent == m && b in m.tree.contexts && b.Name() == "b"
    ensures NestedIn(a.exp, m.exp) && NestedIn(b.exp, m.exp)
    ensures a.visibility == Public && b.visibility == Public
    ensures m.visibilityTracker.trackedVisibility == Public
    ensures fresh(m) && fresh(a) && fresh(b) && fresh(m.visibilityTracker)
  {
    var foo, defA, defB := TwoMethodNodes();
    m := new CodeContext(ContextKind.Module, null, foo);
    a := new CodeContext(ContextKind.Method, m, defA);
    b := new CodeContext(ContextKind.Method, m, defB);
  }

  /**
    `class Foo; def a; end; private; def b; end; end`: the bare `private` is
    not retroactive, so `a` stays public, while `b`, appended after it, is
    private at once.
  */
  method UnnamedDirective()
  {
    var m, a, b := TwoMethodClass();
    m.AppendChildContext(a);
    assert a.visibility == Public;
    m.TrackVisibility(Private, []);
    assert a.visibility == Public;
    m.AppendChildContext(b);
    assert a.visibility == Public && b.visibility == Private;
    assert m.children == [a, b];
  }

  /**
    `class Foo; def a; end; def b; end; private :a; protected :b; end`: a
    named directive changes exactly the methods it names, whenever they were
    appended.
  */
  method NamedDirectives()
  {
    var m, a, b := TwoMethodClass();
    m.AppendChildContext(a);
    m.AppendChildContext(b);
    assert m.children == [a, b];
    m.TrackVisibility(Private, ["a"]);
    assert a.visibility == Private && b.visibility == Public;
    m.TrackVisibility(Protected, ["b"]);
    assert a.visibility == Private && b.visibility == Protected;
    assert b.NonPublicVisibility() && !b.IsModuleFunction();
    assert m.visibilityTracker.trackedVisibility == Public;

    assert a in m.Each() && b in m.Each() by {
      assert a == m.children[0] && b == m.children[1];
    }
    var privates := m.DefinedInstanceMethods(Private);
    assert a in privates && b !in privates;
    var publics := m.DefinedInstanceMethods();
    assert a !in publics && b !in publics;
  }

  /** The syntax nodes of `class Foo; def a; x; each { y }; end; def self.s; z; end; end`. */
  method CallClassNodes() returns (foo: Node, defA: Node, x: Node, blk: Node, y: Node, defS: Node, z: Node)
    ensures NestedIn(defA, foo) && NestedIn(x, defA) && NestedIn(blk, defA) && NestedIn(y, blk)
    ensures NestedIn(defS, foo) && NestedIn(z, defS)
  {
    x := CallNode("x");
    y := CallNode("y");
    z := CallNode("z");
    blk := Node(Block, [Sub(CallNode("each")), Sub(Node(Args, [])), Sub(y)]);
    var statements := Node(OtherType("begin"), [Sub(x), Sub(blk)]);
    defA := DefNode("a", Sub(statements));
    defS := Node(Defs, [Sub(Node(OtherType("self"), [])), Sym("s"), Sub(Node(Args, [])), Sub(z)]);
    var body := Node(OtherType("begin"), [Sub(defA), Sub(defS)]);
    foo := Node(NodeType.Class, [Sub(Node(Const, [Empty, Sym("Foo")])), Empty, Sub(body)]);
    NestedViaChild(defA, body, 0);
    NestedViaChild(defA, foo, 2);
    NestedViaChild(defS, body, 1);
    NestedViaChild(defS, foo, 2);
    NestedViaChild(x, statements, 0);
    NestedViaChild(x, defA, 2);
    NestedViaChild(blk, statements, 1);
    NestedViaChild(blk, defA, 2);
    NestedViaChild(y, blk, 2);
    NestedViaChild(z, defS, 3);
  }

  /** The class of `CallClassNodes` with its method `a` and singleton method `s` appended. */
  method CallClassMethods() returns (m: CodeContext, a: CodeContext, s: CodeContext, x: Node, blk: Node, y: Node, z: Node)
    ensures m.kind == ContextKind.Module && m.tree.Closed() && m in m.tree.contexts && m.children == [a, s]
    ensures a.kind == ContextKind.Method && a.parent == m && a in m.tree.contexts && a.children == []
    ensures s.kind == ContextKind.SingletonMethod && s.parent == m && s in m.tree.contexts && s.children == []
    ensures a.tree == m.tree && s.tree == m.tree
    ensures NestedIn(x, a.exp) && NestedIn(blk, a.exp) && NestedIn(y, blk) && NestedIn(z, s.exp)
    ensures fresh(m) && fresh(a) && fresh(s) && a != s
  {
    var foo, defA, defS;
    foo, defA, x, blk, y, defS, z := CallClassNodes();
    m := new CodeContext(ContextKind.Module, null, foo);
    a := new CodeContext(ContextKind.Method, m, defA);
    m.AppendChildContext(a);
    s := new CodeContext(ContextKind.SingletonMethod, m, defS);
    m.AppendChildContext(s);
  }

  /**
    In a module whose method `a` holds the call `callX` directly, the call is
    an instance method call; calls whose parent is a block or a singleton
    method are not.
  */
  lemma DirectCallsOnly(m: CodeContext, a: CodeContext, callX: CodeContext, callY: CodeContext, callZ: CodeContext)
    requires m.kind == ContextKind.Module && m.tree.Closed() && m in m.tree.contexts
    requires |m.children| > 0 && m.children[0] == a && a.kind == ContextKind.Method
    requires |a.children| > 0 && a.children[0] == callX && callX.kind == ContextKind.Send && callX.parent == a
    requires callY.parent != null && callY.parent.kind == ContextKind.Other
    requires callZ.parent != null && callZ.parent.kind == ContextKind.SingletonMethod
    ensures callX in m.InstanceMethodCalls()
    ensures callY !in m.InstanceMethodCalls() && callZ !in m.InstanceMethodCalls()
  {
    var all := m.Each();
    assert a in all;
    assert callX in all;
  }

  /** The calls `x`, `y` (in a block) and `z` appended below the methods of `CallClassMethods`. */
  method CallClassCalls() returns (m: CodeContext, a: CodeContext, callX: CodeContext, callY: CodeContext, callZ: CodeContext)
    ensures m.kind == ContextKind.Module && m.tree.Closed() && m in m.tree.contexts
    ensures |m.children| > 0 && m.children[0] == a && a.kind == ContextKind.Method
    ensures |a.children| > 0 && a.children[0] == callX && callX.kind == ContextKind.Send && callX.parent == a
    ensures callY.kind == ContextKind.Send && callY.parent != null && callY.parent.kind == ContextKind.Other
    ensures callZ.kind == ContextKind.Send && callZ.parent != null && callZ.parent.kind == ContextKind.SingletonMethod
  {
    var s, x, blk, y, z;
    m, a, s, x, blk, y, z := CallClassMethods();
    callX := AddChild(ContextKind.Send, a, x);
    var block := AddChild(ContextKind.Other, a, blk);
    callY := AddChild(ContextKind.Send, block, y);
    callZ := AddChild(ContextKind.Send, s, z);
  }

  /** A new context of kind `kind` for `node`, appended to `parent`'s children. */
  method AddChild(kind: ContextKind, parent: CodeContext, node: Node) returns (c: CodeContext)
    requires parent.tree.Closed() && parent in parent.tree.contexts && NestedIn(node, parent.exp)
    requires parent.kind != ContextKind.Module
    modifies parent.tree, parent`children
    ensures c.kind == kind && c.parent == parent && c.exp == node && fresh(c)
    ensures parent.tree.Closed() && c in parent.tree.contexts && c.tree == parent.tree
    ensures parent.tree.contexts == old(parent.tree.contexts) + {c}
    ensures parent.children == old(parent.children) + [c]
  {
    c := new CodeContext(kind, parent, node);
    parent.AppendChildContext(c);
  }

  /**
    Only the call `x`, whose direct parent is the method `a`, is an instance
    method call; `y` sits in a block and `z` in a singleton method.
  */
  method CallsInsideMethods()
  {
    var m, a, callX, callY, callZ := CallClassCalls();
    DirectCallsOnly(m, a, callX, callY, callZ);
    var calls := m.InstanceMethodCalls();
    assert callX in calls && callY !in calls && callZ !in calls;
  }
}
