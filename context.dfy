/**
  The lexical context tree. Every context wraps one syntax node and has a
  parent (none for the root) and an ordered list of child contexts. The
  variants of the Ruby class hierarchy (module, method, singleton method,
  call site, others) are a kind tag on the one class `CodeContext`: a Ruby
  `is_a?(MethodContext)` test is "method or singleton method", a
  `class == MethodContext` test is "method" only.

  A module context owns a `VisibilityTracker`, consulted whenever a child is
  appended and whenever a visibility directive is met; a method context has a
  mutable visibility and caches its default assignments.
*/
module Context {
  import opened Wrappers
  import Ast
  import Seqs
  import opened MethodContext
  import ModuleContext

  datatype ContextKind = Module | Method | SingletonMethod | Send | Other

  /**
    The contexts of one tree, shared by all of them so that appending a child
    anywhere keeps the whole tree well formed. Every child belongs to the
    same tree, names its parent, and wraps a node strictly smaller than its
    parent's and nested in it, so the tree is finite and acyclic.
  */
  class ContextTree {
    ghost var contexts: set<CodeContext>

    constructor ()
      ensures contexts == {}
    {
      contexts := {};
    }

    ghost predicate Closed()
      reads this, contexts`children
    {
      (forall c :: c in contexts ==> c.tree == this && (c.kind == Module <==> c.visibilityTracker != null)) &&
      (forall c, i :: c in contexts && 0 <= i < |c.children| ==>
         c.children[i] in contexts && c.children[i].parent == c &&
         Ast.NestedIn(c.children[i].exp, c.exp) && Ast.Size(c.children[i].exp) < Ast.Size(c.exp))
    }
  }

  /**
    Stand-in for the tracker that turns visibility directives into method
    visibilities: a directive without names changes the visibility given to
    instance methods appended afterwards; a directive with names sets the
    visibility of the listed children that carry one of those names.
  */
  class VisibilityTracker {
    var trackedVisibility: Visibility

    constructor ()
      ensures trackedVisibility == Public
    {
      trackedVisibility := Public;
    }

    method SetChildVisibility(child: CodeContext)
      modifies child`visibility
      ensures child.visibility == if child.IsInstanceMethod() then trackedVisibility else old(child.visibility)
    {
      if child.IsInstanceMethod() {
        child.visibility := trackedVisibility;
      }
    }

    method TrackVisibility(children: seq<CodeContext>, visibility: Visibility, names: seq<string>)
      modifies this, children`visibility
      ensures trackedVisibility == if |names| == 0 then visibility else old(trackedVisibility)
      ensures forall c :: c in children ==>
                c.visibility == if |names| > 0 && c.Name() in names then visibility else old(c.visibility)
    {
      if |names| == 0 {
        trackedVisibility := visibility;
      } else {
        for i := 0 to |children|
          invariant trackedVisibility == old(trackedVisibility)
          invariant forall c :: c in children ==>
                      c.visibility == if c in children[..i] && c.Name() in names then visibility else old(c.visibility)
        {
          if children[i].Name() in names {
            children[i].visibility := visibility;
          }
        }
        assert children[..|children|] == children;
      }
    }
  }

  class CodeContext {
    const kind: ContextKind
    const exp: Ast.Node
    const parent: CodeContext?
    const tree: ContextTree
    const visibilityTracker: VisibilityTracker?
    var children: seq<CodeContext>
    var visibility: Visibility
    var defaultAssignmentsCache: Option<seq<seq<Ast.Slot>>>

    /**
      A new context of the given kind, wrapping `exp` inside `parent`. A
      module context creates its tracker; a method context starts public.
    */
    constructor (kind: ContextKind, parent: CodeContext?, exp: Ast.Node)
      requires parent != null ==> parent.tree.Closed()
      modifies if parent != null then {parent.tree} else {}
      ensures this.kind == kind && this.parent == parent && this.exp == exp
      ensures children == [] && visibility == Public && defaultAssignmentsCache == None
      ensures kind == Module ==> visibilityTracker != null && fresh(visibilityTracker) &&
                                 visibilityTracker.trackedVisibility == Public
      ensures parent != null ==> tree == parent.tree && tree.contexts == old(parent.tree.contexts) + {this}
      ensures parent == null ==> fresh(tree) && tree.contexts == {this}
      ensures tree.Closed()
    {
      this.kind := kind;
      this.parent := parent;
      this.exp := exp;
      if parent != null {
        this.tree := parent.tree;
      } else {
        this.tree := new ContextTree();
      }
      if kind == Module {
        this.visibilityTracker := new VisibilityTracker();
      } else {
        this.visibilityTracker := null;
      }
      children := [];
      visibility := Public;
      defaultAssignmentsCache := None;
      new;
      tree.contexts := tree.contexts + {this};
    }

    /** A Ruby `is_a?(MethodContext)` test: methods and singleton methods. */
    predicate IsMethodContext()
    {
      kind == Method || kind == SingletonMethod
    }

    /** `instance_method?`: true for a method, false for a module. */
    function IsInstanceMethod(): (b: bool)
      ensures kind == Method ==> b
      ensures kind == Module ==> !b
    {
      kind == Method
    }

    /** `singleton_method?`: false for a method and for a module. */
    function IsSingletonMethod(): (b: bool)
      ensures kind == Method ==> !b
      ensures kind == Module ==> !b
    {
      kind == SingletonMethod
    }

    /** `defined_as_instance_method?`: true for a method. */
    function DefinedAsInstanceMethod(): (b: bool)
      requires IsMethodContext()
      ensures kind == Method ==> b
    {
      kind == Method
    }

    /** `module_function?` */
    function IsModuleFunction(): (b: bool)
      requires IsMethodContext()
      reads this`visibility
      ensures b <==> visibility == ModuleFunction
    {
      visibility == ModuleFunction
    }

    /** `non_public_visibility?` */
    function NonPublicVisibility(): (b: bool)
      requires IsMethodContext()
      reads this`visibility
      ensures b <==> visibility != Public
    {
      visibility != Public
    }

    /** The name visibility directives refer to this context by. */
    function Name(): string
    {
      Ast.MethodName(exp)
    }

    /**
      `each`: this context, then the contexts of each child in order
      (pre-order). The result is closed under children and rooted at this
      context: it is exactly this context's subtree, and every other context
      in it wraps a node nested in this context's node.
    */
    function Each(): (r: seq<CodeContext>)
      requires tree.Closed() && this in tree.contexts
      reads tree, tree.contexts`children
      ensures |r| >= 1 && r[0] == this
      ensures forall c :: c in r ==> c in tree.contexts
      ensures forall c :: c in r && c != this ==> c.parent in r
      ensures forall c, i :: c in r && 0 <= i < |c.children| ==> c.children[i] in r
      ensures forall c :: c in r && c != this ==> Ast.NestedIn(c.exp, exp)
      ensures forall c :: c in r && c != this ==>
                exists p, j :: p in r && 0 <= j < |p.children| && p.children[j] == c
      decreases Ast.Size(exp), 1
    {
      [this] + EachFrom(0)
    }

    function EachFrom(i: nat): (r: seq<CodeContext>)
      requires tree.Closed() && this in tree.contexts
      reads tree, tree.contexts`children
      ensures forall c :: c in r ==> c in tree.contexts
      ensures forall c :: c in r ==> c != this && (c.parent == this || c.parent in r)
      ensures forall j :: i <= j < |children| ==> children[j] in r
      ensures forall c, j :: c in r && 0 <= j < |c.children| ==> c.children[j] in r
      ensures forall c :: c in r ==> Ast.NestedIn(c.exp, exp)
      ensures forall c :: c in r ==>
                (exists j :: i <= j < |children| && children[j] == c) ||
                (exists p, j :: p in r && 0 <= j < |p.children| && p.children[j] == c)
      decreases Ast.Size(exp), 0, |children| - i
    {
      if i >= |children| then []
      else
        var child := children[i];
        var below := child.Each();
        var rest := EachFrom(i + 1);
        var r := below + rest;
        forall c | c in below && c != child ensures Ast.NestedIn(c.exp, exp) {
          Ast.NestedTransitive(c.exp, child.exp, exp);
        }
        forall c | c in r
          ensures (exists j :: i <= j < |children| && children[j] == c) ||
                  (exists p, j :: p in r && 0 <= j < |p.children| && p.children[j] == c)
        {
          if c == child {
            assert children[i] == c;
          } else if c in below {
            var p, j :| p in below && 0 <= j < |p.children| && p.children[j] == c;
            assert p in r;
          } else if exists j :: i + 1 <= j < |children| && children[j] == c {
            var j :| i + 1 <= j < |children| && children[j] == c;
            assert i <= j;
          } else {
            var p, j :| p in rest && 0 <= j < |p.children| && p.children[j] == c;
            assert p in r;
          }
        }
        r
    }

    /**
      `append_child_context`: a module first lets its tracker set the child's
      visibility, then the child is appended. The child must be a context of
      this tree made with this context as parent and wrapping a node nested
      in this context's node.
    */
    method AppendChildContext(child: CodeContext)
      requires tree.Closed() && this in tree.contexts
      requires child in tree.contexts && child.parent == this
      requires Ast.NestedIn(child.exp, exp)
      modifies this`children, child`visibility
      ensures tree.Closed()
      ensures children == old(children) + [child]
      ensures child.visibility ==
                if kind == Module && child.IsInstanceMethod() then visibilityTracker.trackedVisibility
                else old(child.visibility)
    {
      if kind == Module {
        visibilityTracker.SetChildVisibility(child);
      }
      Ast.NestedIsSmaller(child.exp, exp);
      children := children + [child];
    }

    /**
      `defined_instance_methods`: the method and singleton-method contexts of
      this module's subtree whose visibility is `visibility`, in `each` order.
    */
    function DefinedInstanceMethods(visibility: Visibility := Public): (r: seq<CodeContext>)
      requires kind == Module
      requires tree.Closed() && this in tree.contexts
      reads tree, tree.contexts
      ensures Seqs.IsSubsequence(r, Each())
      ensures forall c :: c in r ==> c.IsMethodContext() && c.visibility == visibility
      ensures forall c :: c in Each() && c.IsMethodContext() && c.visibility == visibility ==> c in r
    {
      WithVisibility(Each(), visibility)
    }

    /**
      `instance_method_calls`: the call sites of this module's subtree whose
      direct parent is a method (not a singleton method, a block or anything
      else), in `each` order.
    */
    function InstanceMethodCalls(): (r: seq<CodeContext>)
      requires kind == Module
      requires tree.Closed() && this in tree.contexts
      reads tree, tree.contexts`children
      ensures Seqs.IsSubsequence(r, Each())
      ensures forall c :: c in r ==> c.kind == Send && c.parent != null && c.parent.kind == Method
      ensures forall c :: c in Each() && c.kind == Send && c.parent != null && c.parent.kind == Method ==> c in r
    {
      Seqs.Select(Each(), IsCallInMethod)
    }

    /** `instance_method_children`: the direct children that are instance methods. */
    function InstanceMethodChildren(): (r: seq<CodeContext>)
      reads this`children
      ensures Seqs.IsSubsequence(r, children)
      ensures forall c :: c in r ==> c in children && c.kind == Method
      ensures forall c :: c in children && c.kind == Method ==> c in r
    {
      Seqs.Select(children, (c: CodeContext) => c.IsInstanceMethod())
    }

    /** `singleton_method_children`: the direct children that are singleton methods. */
    function SingletonMethodChildren(): (r: seq<CodeContext>)
      reads this`children
      ensures Seqs.IsSubsequence(r, children)
      ensures forall c :: c in r ==> c in children && c.kind == SingletonMethod
      ensures forall c :: c in children && c.kind == SingletonMethod ==> c in r
    {
      Seqs.Select(children, (c: CodeContext) => c.IsSingletonMethod())
    }

    /**
      `track_visibility`: hands only the instance-method children to the
      tracker. Without names the tracker's default changes; with names, the
      named instance-method children get `visibility` and no other child
      changes.
    */
    method TrackVisibility(visibility: Visibility, names: seq<string>)
      requires kind == Module
      requires tree.Closed() && this in tree.contexts
      modifies visibilityTracker, children`visibility
      ensures visibilityTracker.trackedVisibility ==
                if |names| == 0 then visibility else old(visibilityTracker.trackedVisibility)
      ensures forall c :: c in children ==>
                c.visibility == if |names| > 0 && c.IsInstanceMethod() && c.Name() in names
                                then visibility else old(c.visibility)
    {
      visibilityTracker.TrackVisibility(InstanceMethodChildren(), visibility, names);
    }

    /**
      `track_singleton_visibility`: nothing happens without names. Otherwise
      the directive is translated by `VISIBILITY_MAP` and only the
      singleton-method children are handed to the tracker.
    */
    method TrackSingletonVisibility(directive: string, names: seq<string>)
      requires kind == Module
      requires tree.Closed() && this in tree.contexts
      modifies visibilityTracker, children`visibility
      ensures visibilityTracker.trackedVisibility == old(visibilityTracker.trackedVisibility)
      ensures |names| == 0 ==> forall c :: c in children ==> c.visibility == old(c.visibility)
      ensures forall c :: c in children ==>
                c.visibility == if |names| > 0 && ModuleContext.VisibilityMap(directive).Some? &&
                                   c.IsSingletonMethod() && c.Name() in names
                                then ModuleContext.VisibilityMap(directive).value
                                else old(c.visibility)
    {
      if |names| == 0 {
        return;
      }
      var mapped := ModuleContext.VisibilityMap(directive);
      if mapped.Some? {
        visibilityTracker.TrackVisibility(SingletonMethodChildren(), mapped.value, names);
      }
    }

    /** The cache, when filled, holds what `default_assignments` computes. */
    ghost predicate CacheValid()
      reads this`defaultAssignmentsCache
    {
      defaultAssignmentsCache.Some? ==> defaultAssignmentsCache.value == DefaultAssignmentsOf(exp)
    }

    /**
      `default_assignments`: computed on the first call and cached; a later
      call answers the cached value and leaves the cache as it was.
    */
    method DefaultAssignments() returns (r: seq<seq<Ast.Slot>>)
      requires IsMethodContext()
      requires CacheValid()
      modifies this`defaultAssignmentsCache
      ensures CacheValid()
      ensures r == DefaultAssignmentsOf(exp)
      ensures defaultAssignmentsCache == Some(r)
      ensures old(defaultAssignmentsCache).Some? ==> defaultAssignmentsCache == old(defaultAssignmentsCache)
    {
      if defaultAssignmentsCache.Some? {
        r := defaultAssignmentsCache.value;
      } else {
        r := DefaultAssignmentsOf(exp);
        defaultAssignmentsCache := Some(r);
      }
    }
  }

  /** The `instance_method_calls` test: a call site directly inside a method. */
  predicate IsCallInMethod(c: CodeContext)
  {
    c.kind == Send && c.parent != null && c.parent.kind == Method
  }

  /** `each.select { |c| c.is_a?(MethodContext) && c.visibility == v }` */
  function WithVisibility(s: seq<CodeContext>, v: Visibility): (r: seq<CodeContext>)
    reads s
    ensures Seqs.IsSubsequence(r, s)
    ensures forall c :: c in r ==> c in s && c.IsMethodContext() && c.visibility == v
    ensures forall c :: c in s && c.IsMethodContext() && c.visibility == v ==> c in r
  {
    if s == [] then []
    else if s[0].IsMethodContext() && s[0].visibility == v then [s[0]] + WithVisibility(s[1..], v)
    else WithVisibility(s[1..], v)
  }
}
