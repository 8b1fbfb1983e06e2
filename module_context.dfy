/**
  The queries a module context answers from the class or module node it
  wraps, and the translation of class-method visibility directives. The
  mutable part of a module context (its children and its visibility tracker)
  lives on `Context.CodeContext`.
*/
module ModuleContext {
  import opened Wrappers
  import opened Ast
  import opened MethodContext

  /** The node types `namespace_module?` looks for: method definitions. */
  const MethodDefinitions: set<NodeType> := {Def, Defs}

  /** The node types `namespace_module?` does not search: constants, classes, modules. */
  const NamespaceMembers: set<NodeType> := {Casgn, Class, Module}

  /**
    No method definition is reached in `body` without passing through a
    method definition, constant assignment, class or module.
  */
  ghost predicate DefinesNoMethods(body: Node)
  {
    forall d :: Exposed(d, body, MethodDefinitions + NamespaceMembers) ==> d.kind !in MethodDefinitions
  }

  /**
    `namespace_module?`. A constant assignment is never a namespace; a module
    without a body is not one either; otherwise it is one exactly when its
    body holds only constants, classes and modules, and no method definition.
    The body is the node's last child, which for a class or module node is a
    node or nothing.
  */
  function NamespaceModule(exp: Node): (b: bool)
    requires exp.kind != Casgn ==> !LastChild(exp).Sym?
    ensures exp.kind == Casgn ==> !b
    ensures LastChild(exp).Empty? ==> !b
    ensures b <==> exp.kind != Casgn && LastChild(exp).Sub? && DefinesNoMethods(LastChild(exp).node)
  {
    if exp.kind == Casgn then false
    else match LastChild(exp)
      case Sub(contents) =>
        var found := FindNodes(contents, MethodDefinitions, NamespaceMembers);
        if found == [] then
          assert DefinesNoMethods(contents) by {
            forall d | Exposed(d, contents, MethodDefinitions + NamespaceMembers)
              ensures d.kind !in MethodDefinitions
            {
              FindNodesExactly(contents, MethodDefinitions, NamespaceMembers, d);
            }
          }
          true
        else
          FindNodesExactly(contents, MethodDefinitions, NamespaceMembers, found[0]);
          false
      case _ => false
  }

  /** `module Foo; <body>; end` with the name `Foo`. */
  function ModuleNode(body: Slot): Node
  {
    Node(Module, [Sub(Node(Const, [Empty, Sym("Foo")])), body])
  }

  /** Three example modules: one holding only a class, one holding a method, and an empty one. */
  lemma NamespaceModuleExamples()
    // module Foo; class Bar; end; end
    ensures NamespaceModule(ModuleNode(Sub(Node(Class, [Sub(Node(Const, [Empty, Sym("Bar")])), Empty, Empty]))))
    // module Foo; def bar; end; end
    ensures !NamespaceModule(ModuleNode(Sub(Node(Def, [Sym("bar"), Sub(Node(Args, [])), Empty]))))
    // module Foo; end
    ensures !NamespaceModule(ModuleNode(Empty))
  {
  }

  /** `VISIBILITY_MAP`: the directives that set the visibility of class methods. */
  const VisibilityTable: map<string, Visibility> :=
    map["public_class_method" := Public, "private_class_method" := Private]

  /** `VISIBILITY_MAP[directive]`: nothing for a directive the table does not hold. */
  function VisibilityMap(directive: string): (r: Option<Visibility>)
    ensures r == Some(Public) <==> directive == "public_class_method"
    ensures r == Some(Private) <==> directive == "private_class_method"
    ensures r.None? <==> directive != "public_class_method" && directive != "private_class_method"
  {
    if directive in VisibilityTable then Some(VisibilityTable[directive]) else None
  }
}
