# Reek's lexical context tree, modelled in Dafny

Reek is a code-smell detector for Ruby. It walks a parsed source file and builds a
tree of *contexts*, one per lexical scope: modules and classes, method definitions,
singleton-method definitions (`def self.x`), call sites, and others such as blocks.
Smell detectors then query these contexts. This project models the two central
context kinds, module contexts and method contexts, and proves what their queries
return.

- **Context tree** (`context.dfy`). `Context.CodeContext` is one class with a kind
  tag standing for the Ruby class hierarchy. A Ruby `is_a?(MethodContext)` test
  becomes "method or singleton method". A `class == MethodContext` test becomes
  "method" only. Every context records its parent, the syntax node it wraps, and
  its children, which are appended in place. All contexts of one tree share a
  `ContextTree`. Its invariant `Closed` says three things:
  - every child names its parent;
  - every child wraps a node nested in its parent's node;
  - a context has a visibility tracker exactly when it is a module.

  From this invariant, `Each` is proved to hold exactly the subtree. It starts at
  the context itself, is closed under children, and every other member is a child
  of a member. `Each` is defined as a pre-order walk; the order is part of the
  definition, not a proved property.
- **Method contexts** (`method_context.dfy`). The queries a method answers from its
  definition:
  - parameter usage;
  - unused parameters;
  - `super` called without arguments;
  - default assignments.

  The method's visibility is a mutable field. Its default assignments are a
  cached field.
- **Module contexts** (`module_context.rb` becomes `module_context.dfy` plus methods
  of `CodeContext`). The topics are:
  - how appending a child sets its visibility;
  - which methods and calls a module defines;
  - when a module is a pure namespace;
  - how `private`, `protected`, `public`, `module_function`, `private_class_method`
    and `public_class_method` directives change method visibilities.
- **Syntax tree** (`ast.dfy`). A stand-in for the parser's nodes. A node has a type
  tag and a list of slots holding nothing, a symbol or a sub-node. It comes with
  structural definitions of the node queries the contexts call:
  - `find_nodes`, `each_node`, `local_nodes` and `contains_nested_node?`;
  - the argument accessors.

  Each traversal is proved equal to a declarative description of what it
  reaches.
- `seqs.dfy` holds the generic `select` and `map` used throughout. `scenarios.dfy`
  holds worked examples:
  - a bare `private` applies to later methods only;
  - a named `private :a` applies whenever `a` was defined;
  - `instance_method_calls` reports only calls whose direct parent is a method.

A method context starts public (`lib/reek/context/method_context.rb:12-15`). This is
part of `Context.CodeContext.constructor`, which the table cites at the module's
initializer. A module context answers `false` to `instance_method?` and
`singleton_method?` (`lib/reek/context/module_context.rb:94-100`). This is part of the
contracts of `IsInstanceMethod` and `IsSingletonMethod`.

## Model

| member | source | states |
|---|---|---|
| Context.CodeContext.constructor | lib/reek/context/module_context.rb:15-19 | A new context joins its parent's tree, which stays closed, and has no children. A module context gets a fresh tracker whose default is public. Every context starts with public visibility and an empty default-assignments cache. |
| Context.CodeContext.AppendChildContext | lib/reek/context/module_context.rb:28-31 | The child is appended last and the tree stays closed. A module first gives an instance-method child the tracker's current default visibility. No other child's visibility changes, and a non-module parent changes none. |
| Context.CodeContext.Each | lib/reek/context/module_context.rb:34 | `each` starts with the context itself and contains only contexts of the tree. It is closed under children. Every context in it other than the start is a child of a context in it and has its parent in it, so it is exactly the subtree. Every context in it other than the start wraps a node nested in the start's node. |
| Context.CodeContext.DefinedInstanceMethods | lib/reek/context/module_context.rb:33-38 | The result keeps `each` order (a subsequence). It holds exactly the method and singleton-method contexts of the subtree whose visibility equals the argument, which defaults to public. |
| Context.WithVisibility | lib/reek/context/module_context.rb:34-37 | The `select` predicate of `defined_instance_methods`: a subsequence holding exactly the method contexts with the given visibility. |
| Context.CodeContext.InstanceMethodCalls | lib/reek/context/module_context.rb:40-44 | The result keeps `each` order. It holds exactly the call-site contexts of the subtree whose direct parent is a method, as opposed to a singleton method, a block or anything else. |
| Scenarios.DirectCallsOnly | lib/reek/context/module_context.rb:40-44 | A call directly inside an instance method is reported. A call whose parent is a block or a singleton method is not. |
| ModuleContext.NamespaceModule | lib/reek/context/module_context.rb:63-67 | A constant assignment is never a namespace. A module with no body is not one. Otherwise a module is a namespace exactly when no method definition is reachable in its body without passing through a method definition, constant assignment, class or module. |
| ModuleContext.NamespaceModuleExamples | lib/reek/context/module_context.rb:57-67 | A module holding only a class is a namespace. A module holding a method is not. An empty module is not. |
| Ast.FindNodesExactly | lib/reek/context/module_context.rb:66 | `find_nodes(targets, ignoring)` returns exactly the nodes that satisfy all of: reachable without passing through a target or ignored node, of a target type, and not of an ignored type. |
| Context.CodeContext.TrackVisibility | lib/reek/context/module_context.rb:69-73 | Only instance-method children are handed to the tracker. Without names, the tracker's default becomes the new visibility and no child changes. With names, exactly the instance-method children carrying one of the names get the new visibility; all other children keep theirs. |
| ModuleContext.VisibilityMap | lib/reek/context/module_context.rb:76 | `public_class_method` maps to public and `private_class_method` maps to private. Every other directive has no entry. |
| Context.CodeContext.TrackSingletonVisibility | lib/reek/context/module_context.rb:78-84 | Without names, nothing changes. Otherwise, exactly the singleton-method children carrying one of the names get the directive's mapped visibility. The tracker's default never changes. |
| Context.CodeContext.InstanceMethodChildren | lib/reek/context/module_context.rb:86-88 | A subsequence of the children holding exactly the instance-method children. |
| Context.CodeContext.SingletonMethodChildren | lib/reek/context/module_context.rb:90-92 | A subsequence of the children holding exactly the singleton-method children. |
| Context.CodeContext.IsInstanceMethod | lib/reek/context/method_context.rb:47-49 | True for a method context. False for a module context. |
| Context.CodeContext.IsSingletonMethod | lib/reek/context/method_context.rb:43-45 | False for a method context. False for a module context. |
| Context.CodeContext.DefinedAsInstanceMethod | lib/reek/context/method_context.rb:52-54 | True for a method context. |
| Context.CodeContext.IsModuleFunction | lib/reek/context/method_context.rb:56-58 | True exactly when the visibility is `module_function`. |
| Context.CodeContext.NonPublicVisibility | lib/reek/context/method_context.rb:61-63 | True exactly when the visibility is not public. |
| MethodContext.FindRead | lib/reek/context/method_context.rb:22 | `find` returns the first read of a variable with the parameter's name. It returns nothing exactly when no read has that name. |
| Ast.LocalNodes | lib/reek/context/method_context.rb:22 | `local_nodes(type)` holds exactly the nodes of that type in the context's own span, never entering a nested class or module. |
| Ast.EachNodeExactly | lib/reek/context/method_context.rb:22 | The traversal behind `local_nodes` yields exactly the nodes of the type reachable without entering an ignored child. |
| MethodContext.UsesParam | lib/reek/context/method_context.rb:21-23 | True exactly when a local-variable read of that name occurs in the method's own span. |
| MethodContext.UnusedParams | lib/reek/context/method_context.rb:26-32 | The result keeps argument order. It holds declared arguments only and never a block argument. It holds no anonymous splat, no name marked unused with a leading `_`, and nothing read in the method's span. Every argument meeting these conditions is in it. A repeated argument is kept once per occurrence when it is unused and not at all otherwise. |
| MethodContext.UsesSuperWithImplicitArguments | lib/reek/context/method_context.rb:34-36 | False for a method with no body. Otherwise true exactly when a bare `super` occurs at any depth of the body. |
| Ast.ContainsNestedNode | lib/reek/context/method_context.rb:35 | `contains_nested_node?(type)` holds exactly when a node of that type lies at or below the node, at any depth. |
| MethodContext.DefaultAssignmentsOf | lib/reek/context/method_context.rb:40 | The entries are the children of the optional parameters, one entry per optional parameter, in declaration order. A parameter that occurs more than once contributes one entry per occurrence. Each entry is the children of an optional parameter, and every optional parameter contributes its entry. There are no more entries than parameters, and none when no parameter is optional. |
| MethodContext.DefaultAssignmentsDetermined | lib/reek/context/method_context.rb:40 | The contract of `DefaultAssignmentsOf` allows exactly one answer: any list that is the children of the optional parameters, in order and with every occurrence kept, equals it. |
| Scenarios.RepeatedOptionalParameters | lib/reek/context/method_context.rb:40 | For `def f(_a = 1, _a = 1)` the default assignments are the parameter's children twice. |
| Context.CodeContext.DefaultAssignments | lib/reek/context/method_context.rb:38-41 | The answer is the default assignments of the definition, and afterwards the cache holds it. A cache that was already filled answers unchanged, because `||=` never recomputes. |

## Left out

- `VisibilityTracker`: the tracker's own source, `visibility_tracker.rb`, is not part of this model. `Context.VisibilityTracker` is a stand-in with two behaviours. A directive without names sets the default for instance methods appended later. A directive with names sets the named children.
- Context.CodeContext.TrackVisibility: takes only the four visibilities public, private, protected and module_function. The Ruby method forwards whatever symbol it is given to the tracker. How the tracker handles any other symbol is not modelled, because the tracker's source is not part of this model.
- TrackSingletonVisibility: for a directive with no entry in `VISIBILITY_MAP`, the Ruby code hands `nil` to the tracker as the visibility. The model hands nothing on and no child changes, because `nil` is not a visibility.
- `code_context.rb` is not part of this model. `each` is taken to yield the context itself and then every child's `each` in order. `append_child_context` is taken to append to `children`. The base class's answer to `instance_method?` and `singleton_method?` for call sites and other contexts is taken to be false.
- `singleton_method_context.rb` is not part of this model. A singleton-method context is a method context of kind `SingletonMethod`: it is a method context but not an instance method, and it answers true to `singleton_method?`.
- `node_instance_methods` (`module_context.rb:49-51`) is deprecated and is not modelled. `local_nodes` itself is the modelled `Ast.LocalNodes`.
- `descriptively_commented?` (`module_context.rb:53-55`) needs comment parsing (`CodeComment`), which is not part of this model.
- `references_self?` (`method_context.rb:17-19`) depends on the parser's `depends_on_instance?`, which is not part of this model.
- `refs` (`method_context.rb:10`) is filled by the context builder, which is not part of this model.
- The parser and its node extensions are represented by the structural stand-ins in `ast.dfy`, not by the parser's own code. Source locations, comments and the `:reek:` annotations are not represented. Names are strings instead of symbols.
- Ruby's truthy results are modelled as booleans. For example, `uses_param?` returns a node or `nil` and is modelled as whether a node was found, and `namespace_module?` answers `nil` for an empty body and is modelled as `false`.
- Context.CodeContext.AppendChildContext: requires the child's node to be nested strictly inside the parent's node, so that the tree is acyclic and `each` terminates. The Ruby `append_child_context` demands nothing of the child. A tree in which a child wraps its parent's own node, such as a file's root context holding a module context for the same top node, is therefore not modelled. Module parents, whose children always wrap nodes inside the module body, are unaffected.
- NamespaceModule: requires that a class or module node's last child is a node or nothing, never a bare symbol. This holds for the parser's class and module nodes, where the last child is the body.
- `require_relative` loading and the formatter import are not modelled.
