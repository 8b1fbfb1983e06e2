/**
  The queries a method context answers from the method definition it wraps:
  parameter usage, calls to `super` without arguments, and default values.
  The mutable part of a method context (its visibility and the cached default
  assignments) lives on `Context.CodeContext`.
*/
module MethodContext {
  import opened Wrappers
  import opened Ast
  import Seqs

  /** The visibilities a visibility directive can give a method. */
  datatype Visibility = Public | Private | Protected | ModuleFunction

  /** `find`: the first local-variable read of `lvars` whose name is `param`. */
  function FindRead(lvars: seq<Node>, param: string): (r: Option<Node>)
    ensures r.Some? ==> r.value in lvars && VarName(r.value) == Some(param)
    ensures r.Some? ==> exists i :: 0 <= i < |lvars| && lvars[i] == r.value &&
                                    forall j :: 0 <= j < i ==> VarName(lvars[j]) != Some(param)
    ensures r.None? <==> forall i :: 0 <= i < |lvars| ==> VarName(lvars[i]) != Some(param)
  {
    if lvars == [] then None
    else if VarName(lvars[0]) == Some(param) then Some(lvars[0])
    else
      var rest := FindRead(lvars[1..], param);
      if rest.Some? then
        ghost var i :| 0 <= i < |lvars[1..]| && lvars[1..][i] == rest.value &&
                       forall j :: 0 <= j < i ==> VarName(lvars[1..][j]) != Some(param);
        assert lvars[i + 1] == rest.value;
        rest
      else
        rest
  }

  /**
    `uses_param?`: the method reads a local variable named `param` somewhere
    in its own span (not inside a nested class or module).
  */
  function UsesParam(exp: Node, param: string): (b: bool)
    ensures b <==> exists d :: Within(d, exp, ContextBoundaries) && d.kind == Lvar && VarName(d) == Some(param)
  {
    var lvars := LocalNodes(exp, Lvar);
    var found := FindRead(lvars, param);
    if found.Some? then
      true
    else
      assert forall d :: Within(d, exp, ContextBoundaries) && d.kind == Lvar ==> d in lvars;
      false
  }

  /** The three `next`/`!uses_param?` tests of `unused_params`. */
  predicate IsUnusedParam(exp: Node, p: Node)
  {
    !AnonymousSplat(p) && !MarkedUnused(p) && !UsesParam(exp, PlainName(p))
  }

  /**
    `unused_params`: the declared arguments, in declaration order, that are
    neither an anonymous splat nor marked unused and are never read.
  */
  function UnusedParams(exp: Node): (r: seq<Node>)
    ensures Seqs.IsSubsequence(r, Arguments(exp))
    ensures forall p :: p in r ==> p in Parameters(exp) && p.kind != Blockarg
    ensures forall p :: p in r ==> !AnonymousSplat(p) && !MarkedUnused(p)
    ensures forall p :: p in r ==> forall d :: Within(d, exp, ContextBoundaries) && d.kind == Lvar ==>
                                                VarName(d) != Some(PlainName(p))
    ensures forall p :: p in Arguments(exp) && IsUnusedParam(exp, p) ==> p in r
    ensures forall p :: p in Arguments(exp) ==>
              multiset(r)[p] == if IsUnusedParam(exp, p) then multiset(Arguments(exp))[p] else 0
  {
    var args := Arguments(exp);
    var unused := (p: Node) => IsUnusedParam(exp, p);
    var r := Seqs.Select(args, unused);
    forall p | p in args
      ensures multiset(r)[p] == if IsUnusedParam(exp, p) then multiset(args)[p] else 0
    {
      Seqs.SelectCounts(args, unused, p);
    }
    forall p | p in r
      ensures p in Parameters(exp) && p.kind != Blockarg
      ensures !AnonymousSplat(p) && !MarkedUnused(p) && !UsesParam(exp, PlainName(p))
    {
      var i :| 0 <= i < |r| && r[i] == p;
      var j :| 0 <= j < |args| && args[j] == p;
    }
    r
  }

  /**
    `uses_super_with_implicit_arguments?`: the method has a body and a bare
    `super` occurs somewhere in it, at any depth.
  */
  function UsesSuperWithImplicitArguments(exp: Node): (b: bool)
    ensures Body(exp).None? ==> !b
    ensures Body(exp).Some? ==> (b <==> exists d :: Within(d, Body(exp).value, {}) && d.kind == Zsuper)
  {
    match Body(exp)
    case None => false
    case Some(body) => ContainsNestedNode(body, Zsuper)
  }

  /**
    `opt` is the optional parameters of `params`, in declaration order, each
    occurrence of a repeated parameter kept.
  */
  ghost predicate OptionalInOrder(opt: seq<Node>, params: seq<Node>)
  {
    Seqs.IsSubsequence(opt, params) &&
    (forall p :: p in opt <==> p in params && OptionalArgument(p)) &&
    (forall p :: p in params ==> multiset(opt)[p] == if OptionalArgument(p) then multiset(params)[p] else 0)
  }

  /** Selecting the optional parameters yields them in order, every occurrence kept. */
  lemma OptionalSelected(params: seq<Node>)
    ensures OptionalInOrder(Seqs.Select(params, OptionalArgument), params)
  {
    var optional := Seqs.Select(params, OptionalArgument);
    forall p | p in params
      ensures multiset(optional)[p] == if OptionalArgument(p) then multiset(params)[p] else 0
    {
      Seqs.SelectCounts(params, OptionalArgument, p);
    }
    assert forall p :: p in optional ==> p in params && OptionalArgument(p) by {
      forall p | p in optional ensures p in params && OptionalArgument(p) {
        var i :| 0 <= i < |optional| && optional[i] == p;
      }
    }
  }

  /** `r` lists the children of each node of `opt`, one entry per node, in order. */
  ghost predicate SlotsOf(r: seq<seq<Slot>>, opt: seq<Node>)
  {
    |r| == |opt| && forall i :: 0 <= i < |opt| ==> r[i] == opt[i].slots
  }

  /**
    What `default_assignments` computes: the children of each optional
    parameter (its name and default expression), in declaration order.
  */
  function DefaultAssignmentsOf(exp: Node): (r: seq<seq<Slot>>)
    ensures |r| <= |Parameters(exp)|
    ensures forall i :: 0 <= i < |r| ==>
              exists p :: p in Parameters(exp) && OptionalArgument(p) && r[i] == p.slots
    ensures forall p :: p in Parameters(exp) && OptionalArgument(p) ==> p.slots in r
    ensures (forall p :: p in Parameters(exp) ==> !OptionalArgument(p)) ==> r == []
    ensures exists opt :: OptionalInOrder(opt, Parameters(exp)) && SlotsOf(r, opt)
  {
    var params := Parameters(exp);
    var optional := Seqs.Select(params, OptionalArgument);
    OptionalSelected(params);
    var r := Seqs.Map(optional, (p: Node) => p.slots);
    assert OptionalInOrder(optional, params) && SlotsOf(r, optional);
    assert forall p :: p in optional ==> p.slots in r by {
      forall p | p in optional ensures p.slots in r {
        var i :| 0 <= i < |optional| && optional[i] == p;
        assert r[i] == p.slots;
      }
    }
    r
  }

  /**
    The contract of `DefaultAssignmentsOf` leaves no freedom: any list of
    entries that is the children of the optional parameters in order, every
    occurrence kept, is its answer.
  */
  lemma DefaultAssignmentsDetermined(exp: Node, r: seq<seq<Slot>>)
    requires exists opt :: OptionalInOrder(opt, Parameters(exp)) && SlotsOf(r, opt)
    ensures r == DefaultAssignmentsOf(exp)
  {
    var params := Parameters(exp);
    var opt: seq<Node> :| OptionalInOrder(opt, params) && SlotsOf(r, opt);
    Seqs.SelectUnique(opt, params, OptionalArgument);
    var d := DefaultAssignmentsOf(exp);
    var opt2: seq<Node> :| OptionalInOrder(opt2, params) && SlotsOf(d, opt2);
    Seqs.SelectUnique(opt2, params, OptionalArgument);
    assert opt == opt2;
    assert |r| == |d|;
    forall i | 0 <= i < |r| ensures r[i] == d[i] {
      assert r[i] == opt[i].slots && d[i] == opt2[i].slots;
    }
  }
}
