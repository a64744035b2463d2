/**
 * `set_parameter_default` of app/core/view.py: gives one parameter of a
 * function's signature a default and makes every other positional
 * parameter keyword-only, then installs the new signature on the function.
 * Parameter defaults are `Some(v)`, or `None` for `Parameter.empty`.
 */
module View {
  import opened Wrappers

  /** `inspect.Parameter.kind`, in the order a signature lists the kinds. */
  datatype Kind = PositionalOnly | PositionalOrKeyword | VarPositional | KeywordOnly | VarKeyword
  {
    function Rank(): nat
    {
      match this
      case PositionalOnly => 0
      case PositionalOrKeyword => 1
      case VarPositional => 2
      case KeywordOnly => 3
      case VarKeyword => 4
    }

    predicate Positional()
    {
      this == PositionalOnly || this == PositionalOrKeyword
    }

    /** `*args` or `**kwargs`: kinds that cannot carry a default. */
    predicate Variadic()
    {
      this == VarPositional || this == VarKeyword
    }
  }

  datatype Param<V> = Param(name: string, kind: Kind, default: Option<V>)

  /** A function object whose `__signature__` can be replaced. */
  class Function<V>
  {
    var signature: seq<Param<V>>

    constructor(signature: seq<Param<V>>)
      ensures this.signature == signature
    {
      this.signature := signature;
    }
  }

  /**
   * What the call gives back: the function itself, the failed `assert`, or
   * one of the two `ValueError`s `inspect` raises: a default given to a
   * variadic parameter, or a new signature with its kinds out of order.
   */
  datatype Outcome<V> = Returned(func: Function<V>) | AssertionFailed | VariadicDefault | WrongParameterOrder

  function Names<V>(ps: seq<Param<V>>): (ns: seq<string>)
    ensures |ns| == |ps| && forall i :: 0 <= i < |ps| ==> ns[i] == ps[i].name
  {
    seq(|ps|, i requires 0 <= i < |ps| => ps[i].name)
  }

  /** Kinds never go back down the order, as a valid signature requires. */
  predicate KindsOrdered<V>(ps: seq<Param<V>>)
  {
    forall i, j :: 0 <= i < j < |ps| ==> ps[i].kind.Rank() <= ps[j].kind.Rank()
  }

  /**
   * The kind check `inspect.Signature` runs on a new parameter list: it
   * keeps the highest kind seen so far and rejects a parameter below it.
   * The list passes exactly when its kinds are ordered.
   */
  method CheckParameterOrder<V>(ps: seq<Param<V>>) returns (ok: bool)
    ensures ok <==> KindsOrdered(ps)
  {
    var top: nat := PositionalOnly.Rank();
    var i := 0;
    while i < |ps|
      invariant 0 <= i <= |ps|
      invariant KindsOrdered(ps[..i])
      invariant i == 0 ==> top == 0
      invariant i > 0 ==> top == ps[i - 1].kind.Rank()
    {
      var kind := ps[i].kind.Rank();
      if kind < top {
        assert ps[i - 1].kind.Rank() > ps[i].kind.Rank();
        return false;
      }
      top := kind;
      i := i + 1;
    }
    assert ps[..i] == ps;
    return true;
  }

  /**
   * One iteration of the loop. The named parameter gets the default and
   * keeps its kind, unless it is variadic, where `Parameter.replace`
   * raises (`None`). Any other positional parameter becomes keyword-only
   * with its default unchanged, and every other parameter passes through.
   */
  function Rewrite<V>(p: Param<V>, param: string, default: V): (q: Option<Param<V>>)
    ensures q.None? <==> p.name == param && p.kind.Variadic()
    ensures q.Some? ==> q.value.name == p.name
    ensures q.Some? && p.name == param ==> q.value.kind == p.kind && q.value.default == Some(default)
    ensures p.name != param && p.kind.Positional() ==> q.Some? && q.value.kind == KeywordOnly && q.value.default == p.default
    ensures p.name != param && !p.kind.Positional() ==> q == Some(p)
  {
    if p.name == param then
      if p.kind.Variadic() then None else Some(p.(default := Some(default)))
    else if p.kind.Positional() then Some(p.(kind := KeywordOnly))
    else Some(p)
  }

  /** Some parameter called `param` is variadic, so giving it a default raises. */
  predicate DefaultRejected<V>(ps: seq<Param<V>>, param: string)
  {
    exists i :: 0 <= i < |ps| && ps[i].name == param && ps[i].kind.Variadic()
  }

  /** The new parameter list, or `None` when building it raises. */
  function RewriteAll<V>(ps: seq<Param<V>>, param: string, default: V): (r: Option<seq<Param<V>>>)
    ensures r.None? <==> DefaultRejected(ps, param)
    ensures r.Some? ==> |r.value| == |ps|
    ensures r.Some? ==> forall i :: 0 <= i < |ps| ==> Some(r.value[i]) == Rewrite(ps[i], param, default)
  {
    if DefaultRejected(ps, param) then None
    else Some(seq(|ps|, i requires 0 <= i < |ps| => Rewrite(ps[i], param, default).value))
  }

  /**
   * `set_parameter_default(func, param, default)`: fails its assertion when
   * `param` is not a parameter; raises when `param` is variadic or when the
   * rewritten list is not a validly ordered signature; otherwise replaces
   * the signature with the rewritten list and returns the same function
   * object. A failed call leaves the signature as it was.
   */
  method SetParameterDefault<V>(func: Function<V>, param: string, default: V) returns (outcome: Outcome<V>)
    modifies func
    ensures param !in Names(old(func.signature)) ==>
      outcome == AssertionFailed && func.signature == old(func.signature)
    ensures param in Names(old(func.signature)) && DefaultRejected(old(func.signature), param) ==>
      outcome == VariadicDefault && func.signature == old(func.signature)
    ensures param in Names(old(func.signature)) && !DefaultRejected(old(func.signature), param) ==>
      var r := RewriteAll(old(func.signature), param, default).value;
      && (!KindsOrdered(r) ==> outcome == WrongParameterOrder && func.signature == old(func.signature))
      && (KindsOrdered(r) ==> outcome == Returned(func) && func.signature == r)
  {
    var sig := func.signature;
    if param !in Names(sig) {
      return AssertionFailed;
    }
    var newParameters: seq<Param<V>> := [];
    var i := 0;
    while i < |sig|
      invariant 0 <= i <= |sig|
      invariant |newParameters| == i
      invariant forall j :: 0 <= j < i ==> Some(newParameters[j]) == Rewrite(sig[j], param, default)
    {
      var parameter := sig[i];
      if parameter.name == param {
        if parameter.kind.Variadic() {
          assert sig[i].name == param && sig[i].kind.Variadic();
          return VariadicDefault;
        }
        parameter := parameter.(default := Some(default));
      } else if parameter.kind.Positional() {
        parameter := parameter.(kind := KeywordOnly);
      }
      newParameters := newParameters + [parameter];
      i := i + 1;
    }
    assert newParameters == RewriteAll(sig, param, default).value;
    var ordered := CheckParameterOrder(newParameters);
    if !ordered {
      return WrongParameterOrder;
    }
    func.signature := newParameters;
    return Returned(func);
  }

  /** The rewritten list has the same names in the same order. */
  lemma SameNames<V>(ps: seq<Param<V>>, param: string, default: V)
    ensures RewriteAll(ps, param, default).Some? ==> Names(RewriteAll(ps, param, default).value) == Names(ps)
  {
    var r := RewriteAll(ps, param, default);
    if r.Some? {
      assert forall i :: 0 <= i < |ps| ==> Names(r.value)[i] == Names(ps)[i];
    }
  }

  /** No parameter's kind moves down the order. */
  lemma RankNeverDrops<V>(p: Param<V>, param: string, default: V)
    ensures Rewrite(p, param, default).Some? ==> Rewrite(p, param, default).value.kind.Rank() >= p.kind.Rank()
  {
  }

  /**
   * For the intended use, where `param` is the first parameter (`self`),
   * is not variadic, and there is no `*args`, the rewrite succeeds and the
   * rewritten list is still a validly ordered signature.
   */
  lemma {:induction false} OrderKeptForLeadingParam<V>(ps: seq<Param<V>>, param: string, default: V)
    requires KindsOrdered(ps)
    requires |ps| > 0 && ps[0].name == param && ps[0].kind != VarKeyword
    requires forall i :: 1 <= i < |ps| ==> ps[i].name != param
    requires forall i :: 0 <= i < |ps| ==> ps[i].kind != VarPositional
    ensures RewriteAll(ps, param, default).Some?
    ensures KindsOrdered(RewriteAll(ps, param, default).value)
  {
    assert !DefaultRejected(ps, param);
    var r := RewriteAll(ps, param, default).value;
    forall i, j | 0 <= i < j < |r|
      ensures r[i].kind.Rank() <= r[j].kind.Rank()
    {
      RankNeverDrops(ps[j], param, default);
      assert ps[i].kind.Rank() <= ps[j].kind.Rank();
      if i > 0 && !ps[i].kind.Positional() {
        assert ps[j].kind.Rank() >= 3;
      }
    }
  }

  /**
   * A positional parameter other than `param` (which becomes keyword-only)
   * comes before `param` while `param` is positional, or before `*args`.
   */
  predicate KeywordOnlyTooEarly<V>(ps: seq<Param<V>>, param: string)
  {
    exists i, j :: 0 <= i < j < |ps| && ps[i].name != param && ps[i].kind.Positional() &&
      ((ps[j].name == param && ps[j].kind.Positional()) || ps[j].kind == VarPositional)
  }

  /**
   * For a valid signature whose rewrite does not raise, the rewritten list
   * is out of order, so view.py's call raises, exactly when a parameter
   * that becomes keyword-only comes before `param` while `param` is
   * positional, or before `*args`.
   */
  lemma {:induction false} OrderBrokenExactly<V>(ps: seq<Param<V>>, param: string, default: V)
    requires KindsOrdered(ps) && !DefaultRejected(ps, param)
    ensures !KindsOrdered(RewriteAll(ps, param, default).value) <==> KeywordOnlyTooEarly(ps, param)
  {
    var r := RewriteAll(ps, param, default).value;
    if KeywordOnlyTooEarly(ps, param) {
      var i, j :| 0 <= i < j < |ps| && ps[i].name != param && ps[i].kind.Positional() &&
        ((ps[j].name == param && ps[j].kind.Positional()) || ps[j].kind == VarPositional);
      assert r[i].kind.Rank() > r[j].kind.Rank();
    } else {
      forall i, j | 0 <= i < j < |r|
        ensures r[i].kind.Rank() <= r[j].kind.Rank()
      {
        RankNeverDrops(ps[j], param, default);
        assert ps[i].kind.Rank() <= ps[j].kind.Rank();
      }
    }
  }

  /** Naming `**kwargs` (or `*args`) makes the call raise. */
  lemma VariadicParamRejected(default: int)
    ensures var ps := [Param("self", PositionalOrKeyword, None), Param("kwargs", VarKeyword, None)];
      KindsOrdered(ps) && RewriteAll(ps, "kwargs", default).None?
  {
    var ps: seq<Param<int>> := [Param("self", PositionalOrKeyword, None), Param("kwargs", VarKeyword, None)];
    assert ps[1].name == "kwargs" && ps[1].kind.Variadic();
  }

  /**
   * With a positional parameter before `*args`, the rewritten list puts a
   * keyword-only parameter before the variadic one, so the call raises
   * instead of returning.
   */
  lemma VarPositionalBreaksOrder(default: int)
    ensures var ps := [Param("self", PositionalOrKeyword, None), Param("a", PositionalOrKeyword, None),
                       Param("args", VarPositional, None)];
      KindsOrdered(ps) && RewriteAll(ps, "self", default).Some? && !KindsOrdered(RewriteAll(ps, "self", default).value)
  {
    var ps := [Param("self", PositionalOrKeyword, None), Param("a", PositionalOrKeyword, None),
               Param("args", VarPositional, None)];
    assert !DefaultRejected(ps, "self");
    var r := RewriteAll(ps, "self", default).value;
    assert r[1].kind == KeywordOnly && r[2].kind == VarPositional;
  }

  /**
   * When `param` is not the first parameter, the positional parameter before
   * it becomes keyword-only while `param` stays positional, so the call
   * raises as well.
   */
  lemma LaterParamBreaksOrder(default: int)
    ensures var ps := [Param("a", PositionalOrKeyword, None), Param("self", PositionalOrKeyword, None)];
      KindsOrdered(ps) && RewriteAll(ps, "self", default).Some? && !KindsOrdered(RewriteAll(ps, "self", default).value)
  {
    var ps := [Param("a", PositionalOrKeyword, None), Param("self", PositionalOrKeyword, None)];
    assert !DefaultRejected(ps, "self");
    var r := RewriteAll(ps, "self", default).value;
    assert r[0].kind == KeywordOnly && r[1].kind == PositionalOrKeyword;
  }
}
