/**
 * Action schemas and their grounding into concrete actions
 * (`neg`, `Action.__init__`, `Action.ground`, `_grounder`, `_GroundedAction`
 * in pyddl/pyddl.py).
 */
module Actions {
  import opened Terms

  /** `neg(effect)`: the tuple `(-1, effect)`, read as a delete effect by
      `State.apply` and as a literal fact by `State.is_true`. */
  function Neg(atom: Term): Term {
    Tup([Num(-1), atom])
  }

  /** An action schema. The source never updates these fields after the
      constructor, so a schema is a value. */
  datatype Action = Action(
    name: Term,
    types: seq<Term>,
    argNames: seq<Term>,
    preconditions: seq<Term>,
    effects: seq<Term>,
    unique: bool,
    noPermute: bool)

  datatype ActionError =
    | InvalidParameters      // "Invalid parameters"
    | MalformedParameters    // zip(*parameters) cannot be unpacked into two columns
    | InvalidPreconditions   // "Invalid preconditions"
    | InvalidEffects         // "Invalid effects"

  /** What `zip` sees when it iterates a parameter: the elements of a tuple,
      the one-character strings of a string; None for a value that is not
      iterable. */
  function Iter(t: Term): Option<seq<Term>> {
    match t
    case Tup(es) => Some(es)
    case Sym(s) => Some(seq(|s|, i requires 0 <= i < |s| => Sym([s[i]])))
    case _ => None
  }

  /** `types, arg_names = zip(*parameters)` succeeds: every parameter is
      iterable and the shortest has exactly two elements. */
  predicate Unzippable(parameters: seq<Term>) {
    && (forall i :: 0 <= i < |parameters| ==> Iter(parameters[i]).Some?)
    && (forall i :: 0 <= i < |parameters| ==> |Iter(parameters[i]).value| >= 2)
    && (exists i :: 0 <= i < |parameters| && |Iter(parameters[i]).value| == 2)
  }

  /** Column `k` (0 or 1) of `zip(*parameters)`. */
  function Column(parameters: seq<Term>, k: nat): seq<Term>
    requires k < 2
    requires forall i :: 0 <= i < |parameters| ==> Iter(parameters[i]).Some?
    requires forall i :: 0 <= i < |parameters| ==> |Iter(parameters[i]).value| >= 2
  {
    seq(|parameters|, i requires 0 <= i < |parameters| => Iter(parameters[i]).value[k])
  }

  /** `Action.__init__`: validate the shapes, split the parameter pairs
      into types and names. Only the first element of each list is
      inspected. */
  function NewAction(
    name: Term, parameters: seq<Term>, preconditions: seq<Term>, effects: seq<Term>,
    unique: bool, noPermute: bool): (r: Result<Action, ActionError>)
    ensures r.Ok? <==>
      && (|parameters| == 0 || (parameters[0].Tup? && Unzippable(parameters)))
      && (|preconditions| == 0 || preconditions[0].Tup?)
      && (|effects| == 0 || effects[0].Tup?)
    ensures r == Err(InvalidParameters) <==> |parameters| > 0 && !parameters[0].Tup?
    ensures r == Err(InvalidPreconditions) <==>
      && (|parameters| == 0 || (parameters[0].Tup? && Unzippable(parameters)))
      && |preconditions| > 0 && !preconditions[0].Tup?
    ensures r.Ok? ==>
      && r.value.name == name
      && r.value.preconditions == preconditions
      && r.value.effects == effects
      && r.value.unique == unique && r.value.noPermute == noPermute
      && |r.value.types| == |r.value.argNames| == |parameters|
    ensures r.Ok? ==> forall i :: 0 <= i < |parameters| && parameters[i].Tup? ==>
      r.value.types[i] == parameters[i].elems[0] && r.value.argNames[i] == parameters[i].elems[1]
  {
    if |parameters| > 0 && !parameters[0].Tup? then Err(InvalidParameters)
    else if |parameters| > 0 && !Unzippable(parameters) then Err(MalformedParameters)
    else if |preconditions| > 0 && !preconditions[0].Tup? then Err(InvalidPreconditions)
    else if |effects| > 0 && !effects[0].Tup? then Err(InvalidEffects)
    else
      var types := if |parameters| == 0 then [] else Column(parameters, 0);
      var names := if |parameters| == 0 then [] else Column(parameters, 1);
      Ok(Action(name, types, names, preconditions, effects, unique, noPermute))
  }

  // ---------------------------------------------------------------------
  // _grounder: the parameter-name map and the recursive substitution

  /** The dictionary built by `_grounder`'s loop over
      `zip(arg_names, args)`: pairs past the shorter list are dropped and a
      later pair overwrites an earlier one for the same name. */
  function NameMap(names: seq<Term>, args: seq<Term>): map<Term, Term>
    decreases |names| + |args|
  {
    if |names| == 0 || |args| == 0 then map[]
    else if |names| > |args| then NameMap(names[..|args|], args)
    else if |args| > |names| then NameMap(names, args[..|names|])
    else NameMap(names[..|names| - 1], args[..|args| - 1])[names[|names| - 1] := args[|args| - 1]]
  }

  function Min(a: nat, b: nat): nat {
    if a < b then a else b
  }

  /** A name is bound iff it occurs among the first `min(|names|, |args|)`
      names, and it is bound to the argument of its last occurrence. */
  lemma {:induction false} NameMapLookup(names: seq<Term>, args: seq<Term>, i: nat)
    requires i < Min(|names|, |args|)
    requires forall j :: i < j < Min(|names|, |args|) ==> names[j] != names[i]
    ensures names[i] in NameMap(names, args)
    ensures NameMap(names, args)[names[i]] == args[i]
    decreases |names| + |args|
  {
    if |names| > |args| {
      NameMapLookup(names[..|args|], args, i);
    } else if |args| > |names| {
      NameMapLookup(names, args[..|names|], i);
    } else if i < |names| - 1 {
      NameMapLookup(names[..|names| - 1], args[..|args| - 1], i);
    }
  }

  lemma {:induction false} NameMapKeys(names: seq<Term>, args: seq<Term>)
    ensures forall k :: k in NameMap(names, args) <==>
      exists i :: 0 <= i < Min(|names|, |args|) && names[i] == k
    decreases |names| + |args|
  {
    if |names| == 0 || |args| == 0 {
    } else if |names| > |args| {
      NameMapKeys(names[..|args|], args);
    } else if |args| > |names| {
      NameMapKeys(names, args[..|names|]);
    } else {
      var n := |names| - 1;
      NameMapKeys(names[..n], args[..n]);
      assert Min(|names[..n]|, |args[..n]|) == n;
      assert NameMap(names, args) == NameMap(names[..n], args[..n])[names[n] := args[n]];
      forall k ensures k in NameMap(names, args) <==> exists i :: 0 <= i < n + 1 && names[i] == k {
        if k in NameMap(names, args) && k != names[n] {
          var i :| 0 <= i < n && names[..n][i] == k;
          assert names[i] == k;
        }
        if exists i :: 0 <= i < n + 1 && names[i] == k {
          var i :| 0 <= i < n + 1 && names[i] == k;
          if i < n {
            assert names[..n][i] == k;
          }
        }
      }
    }
  }

  /** `_grounder`'s loop, which fills the dictionary pair by pair. */
  method BuildNameMap(names: seq<Term>, args: seq<Term>) returns (namemap: map<Term, Term>)
    ensures namemap == NameMap(names, args)
  {
    var n := Min(|names|, |args|);
    assert NameMap(names, args) == NameMap(names[..n], args[..n]) by {
      if |names| > |args| {
        assert args[..n] == args;
      } else if |args| > |names| {
        assert names[..n] == names;
      } else {
        assert names[..n] == names && args[..n] == args;
      }
    }
    namemap := map[];
    var i := 0;
    while i < n
      invariant 0 <= i <= n
      invariant namemap == NameMap(names[..i], args[..i])
    {
      assert names[..i + 1][..i] == names[..i] && args[..i + 1][..i] == args[..i];
      namemap := namemap[names[i] := args[i]];
      i := i + 1;
    }
  }

  /** `namemap.get(t, t)` */
  function Lookup(m: map<Term, Term>, t: Term): Term {
    if t in m then m[t] else t
  }

  /** `_ground_by_names`: a string or int is looked up in the name map; a
      tuple is rebuilt element by element, each element being looked up as a
      whole and, failing that, grounded recursively (the recursive grounding
      is evaluated even when the lookup succeeds); any other leaf raises. */
  function Subst(m: map<Term, Term>, t: Term): (r: Option<Term>)
    ensures r.Some? <==> !HasOther(t)
    ensures r.Some? && t.Tup? ==> r.value.Tup? && |r.value.elems| == |t.elems|
  {
    match t
    case Other(_) => None
    case Tup(es) =>
      if forall i | 0 <= i < |es| :: Subst(m, es[i]).Some? then
        Some(Tup(seq(|es|, i requires 0 <= i < |es| =>
          if es[i] in m then m[es[i]] else Subst(m, es[i]).value)))
      else None
    case _ => Some(Lookup(m, t))
  }

  /** Reference definition of substitution over terms whose parameter names
      are strings or ints: every leaf, at any depth, is replaced by its
      binding when it has one. */
  function MapLeaves(m: map<Term, Term>, t: Term): Term {
    match t
    case Tup(es) => Tup(seq(|es|, i requires 0 <= i < |es| => MapLeaves(m, es[i])))
    case _ => Lookup(m, t)
  }

  predicate LeafKeys(m: map<Term, Term>) {
    forall k :: k in m ==> IsLeaf(k)
  }

  /** With string or int parameter names, grounding is exactly leaf
      replacement at every depth. */
  lemma {:induction false} SubstReplacesLeaves(m: map<Term, Term>, t: Term)
    requires LeafKeys(m)
    requires !HasOther(t)
    ensures Subst(m, t) == Some(MapLeaves(m, t))
  {
    match t
    case Tup(es) =>
      forall i | 0 <= i < |es| ensures Subst(m, es[i]) == Some(MapLeaves(m, es[i])) {
        SubstReplacesLeaves(m, es[i]);
      }
      var r := Subst(m, t).value;
      forall i | 0 <= i < |es| ensures r.elems[i] == MapLeaves(m, t).elems[i] {
        if es[i] in m {
          assert IsLeaf(es[i]);
        }
      }
      assert r.elems == MapLeaves(m, t).elems;
    case Sym(_) =>
    case Num(_) =>
  }

  /** Whether `t` or any term nested in it is a key of `m`. */
  predicate Touches(m: map<Term, Term>, t: Term) {
    t in m || (t.Tup? && exists i :: 0 <= i < |t.elems| && Touches(m, t.elems[i]))
  }

  /** A term that mentions no parameter name, at any depth, grounds to
      itself: relation names, `-1` and comparison markers pass through. */
  lemma {:induction false} SubstKeepsUnboundTerms(m: map<Term, Term>, t: Term)
    requires !HasOther(t)
    requires !Touches(m, t)
    ensures Subst(m, t) == Some(t)
  {
    match t
    case Tup(es) =>
      forall i | 0 <= i < |es| ensures Subst(m, es[i]) == Some(es[i]) {
        SubstKeepsUnboundTerms(m, es[i]);
      }
      assert Subst(m, t).value.elems == es;
    case Sym(_) =>
    case Num(_) =>
  }

  // ---------------------------------------------------------------------
  // _GroundedAction

  /** A schema whose parameters have been replaced by objects. */
  datatype GroundedAction = GroundedAction(
    name: Term,
    sig: Term,
    preconditions: seq<Term>,
    effects: seq<Term>)

  predicate AllGround(ts: seq<Term>) {
    forall i :: 0 <= i < |ts| ==> !HasOther(ts[i])
  }

  /** The list comprehension `[ground(t) for t in ts]`. */
  function SubstAll(m: map<Term, Term>, ts: seq<Term>): (r: seq<Term>)
    requires AllGround(ts)
    ensures |r| == |ts|
  {
    seq(|ts|, i requires 0 <= i < |ts| => Subst(m, ts[i]).value)
  }

  /** Whether `_GroundedAction(a, *args)` completes without raising. */
  predicate Groundable(a: Action) {
    !HasOther(a.name) && AllGround(a.argNames) && AllGround(a.preconditions) && AllGround(a.effects)
  }

  /** `Action.ground(*args)`, i.e. `_GroundedAction(action, *args)`: the
      signature `(name,) + arg_names`, the preconditions and the effects,
      each passed through the same grounding function. */
  function GroundAction(a: Action, args: seq<Term>): (r: Option<GroundedAction>)
    ensures r.Some? <==> Groundable(a)
    ensures r.Some? ==>
      && r.value.name == a.name
      && |r.value.preconditions| == |a.preconditions|
      && |r.value.effects| == |a.effects|
      && r.value.sig.Tup? && |r.value.sig.elems| == 1 + |a.argNames|
  {
    var m := NameMap(a.argNames, args);
    var sigTerm := Tup([a.name] + a.argNames);
    if Groundable(a) then
      assert !HasOther(sigTerm) by {
        forall i | 0 <= i < |sigTerm.elems| ensures !HasOther(sigTerm.elems[i]) {
          if i > 0 {
            assert sigTerm.elems[i] == a.argNames[i - 1];
          }
        }
      }
      Some(GroundedAction(a.name, Subst(m, sigTerm).value,
        SubstAll(m, a.preconditions), SubstAll(m, a.effects)))
    else
      assert HasOther(sigTerm) || !AllGround(a.preconditions) || !AllGround(a.effects) by {
        if HasOther(a.name) {
          assert sigTerm.elems[0] == a.name;
        } else if !AllGround(a.argNames) {
          var i :| 0 <= i < |a.argNames| && HasOther(a.argNames[i]);
          assert sigTerm.elems[i + 1] == a.argNames[i];
        }
      }
      None
  }

  /** With distinct parameter names that differ from a string or int action
      name, and one argument per name, the grounded signature is
      `(name,) + args`. */
  lemma GroundedSignature(a: Action, args: seq<Term>)
    requires Groundable(a)
    requires IsLeaf(a.name) && a.name !in a.argNames
    requires Distinct(a.argNames) && |args| == |a.argNames|
    ensures GroundAction(a, args).value.sig == Tup([a.name] + args)
  {
    var m := NameMap(a.argNames, args);
    var sig := GroundAction(a, args).value.sig;
    NameMapKeys(a.argNames, args);
    assert a.name !in m;
    var sigTerm := Tup([a.name] + a.argNames);
    assert sig == Subst(m, sigTerm).value;
    assert sig.elems[0] == a.name;
    forall i | 0 <= i < |args| ensures sig.elems[i + 1] == args[i] {
      NameMapLookup(a.argNames, args, i);
      assert sigTerm.elems[i + 1] == a.argNames[i];
    }
    assert sig.elems == [a.name] + args;
  }

  /** With string or int parameter names, each grounded precondition and
      effect is the schema's one, in the same position, with every
      parameter name replaced by its argument at every depth. */
  lemma GroundedConditions(a: Action, args: seq<Term>)
    requires Groundable(a)
    requires forall i :: 0 <= i < |a.argNames| ==> IsLeaf(a.argNames[i])
    ensures var g := GroundAction(a, args).value;
      && (forall i :: 0 <= i < |a.preconditions| ==>
            g.preconditions[i] == MapLeaves(NameMap(a.argNames, args), a.preconditions[i]))
      && (forall i :: 0 <= i < |a.effects| ==>
            g.effects[i] == MapLeaves(NameMap(a.argNames, args), a.effects[i]))
  {
    var m := NameMap(a.argNames, args);
    NameMapKeys(a.argNames, args);
    assert LeafKeys(m);
    forall i | 0 <= i < |a.preconditions| ensures Subst(m, a.preconditions[i]) == Some(MapLeaves(m, a.preconditions[i])) {
      SubstReplacesLeaves(m, a.preconditions[i]);
    }
    forall i | 0 <= i < |a.effects| ensures Subst(m, a.effects[i]) == Some(MapLeaves(m, a.effects[i])) {
      SubstReplacesLeaves(m, a.effects[i]);
    }
  }
}
