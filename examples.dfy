/**
 * Concrete instances of the behaviour pinned down by pyddl/test_pyddl.py,
 * plus a few worked states for `is_true` and `apply`.
 */
module Scenarios {
  import opened Terms
  import opened Actions
  import opened States
  import opened Plans

  const at := Sym("at")
  const t := Sym("t")
  const l := Sym("l")
  const flat := Sym("flat")
  const ground := Sym("ground")

  /** The parameters `(('tire', 't'), ('location', 'l'))`. */
  function RemoveParameters(): seq<Term> {
    [Tup([Sym("tire"), t]), Tup([Sym("location"), l])]
  }

  /** A bare tuple of strings passed where a tuple of preconditions is
      expected is refused before the effects are looked at. */
  lemma PreconditionsMustBeTuples()
    ensures NewAction(Sym("Remove"), RemoveParameters(), [at, t, l],
                      [Neg(Tup([at, t, l])), Tup([at, t, ground])], false, false)
            == Err(InvalidPreconditions)
    ensures NewAction(Sym("Remove"), RemoveParameters(), [at, t, l],
                      [Num(-1), Tup([at, t, l])], false, false)
            == Err(InvalidPreconditions)
  {
    var ps := RemoveParameters();
    assert Iter(ps[0]) == Some([Sym("tire"), t]);
    assert Iter(ps[1]) == Some([Sym("location"), l]);
    assert Unzippable(ps);
  }

  /** The `Remove` schema with the given preconditions and effects. */
  function Remove(pres: seq<Term>, effs: seq<Term>): Action {
    Action(Sym("Remove"), [Sym("tire"), Sym("location")], [t, l], pres, effs, false, false)
  }

  lemma RemoveIsBuilt(pres: seq<Term>, effs: seq<Term>)
    requires pres != [] && pres[0].Tup? && effs != [] && effs[0].Tup?
    ensures NewAction(Sym("Remove"), RemoveParameters(), pres, effs, false, false) == Ok(Remove(pres, effs))
  {
    var ps := RemoveParameters();
    assert Iter(ps[0]) == Some([Sym("tire"), t]);
    assert Iter(ps[1]) == Some([Sym("location"), l]);
    assert Unzippable(ps);
    assert Column(ps, 0) == [Sym("tire"), Sym("location")];
    assert Column(ps, 1) == [t, l];
  }

  /** The name map of `Remove` grounded with `('flat', 'ground')`, and
      what it does to the terms the tests use. */
  lemma RemoveLeaves()
    ensures NameMap([t, l], [flat, ground]) == map[t := flat, l := ground]
    ensures var m := NameMap([t, l], [flat, ground]);
      && !HasOther(Tup([at, t, l])) && MapLeaves(m, Tup([at, t, l])) == Tup([at, flat, ground])
      && !HasOther(Tup([at, t, ground])) && MapLeaves(m, Tup([at, t, ground])) == Tup([at, flat, ground])
      && !HasOther(Tup([at, Tup([t, t]), l])) && MapLeaves(m, Tup([at, Tup([t, t]), l])) == Tup([at, Tup([flat, flat]), ground])
      && !HasOther(Tup([Sym("<="), Tup([t, l]), Num(3)]))
      && MapLeaves(m, Tup([Sym("<="), Tup([t, l]), Num(3)])) == Tup([Sym("<="), Tup([flat, ground]), Num(3)])
      && !HasOther(Neg(Tup([at, t, l]))) && MapLeaves(m, Neg(Tup([at, t, l]))) == Tup([Num(-1), Tup([at, flat, ground])])
  {
    var m := NameMap([t, l], [flat, ground]);
    assert m == map[t := flat, l := ground] by {
      assert NameMap([t], [flat]) == map[t := flat] by {
        assert [t][..0] == [] && [flat][..0] == [];
      }
      assert [t, l][..1] == [t] && [flat, ground][..1] == [flat];
    }
    Triple(m, at, t, l);
    Triple(m, at, t, ground);
    Pair(m, t, t);
    Triple(m, at, Tup([t, t]), l);
    Pair(m, t, l);
    Triple(m, Sym("<="), Tup([t, l]), Num(3));
    Pair(m, Num(-1), Tup([at, t, l]));
  }

  /** The grounded preconditions of the four precondition tests: names are
      replaced at every depth, other strings and ints are kept, and a
      negated precondition stays a `(-1, atom)` tuple. */
  lemma GroundingPreconditions()
    ensures var effs := [Neg(Tup([at, t, l])), Tup([at, t, ground])];
      && GroundAction(Remove([Tup([at, t, l])], effs), [flat, ground]).Some?
      && GroundAction(Remove([Tup([at, t, l])], effs), [flat, ground]).value.preconditions
         == [Tup([at, flat, ground])]
    ensures var effs := [Neg(Tup([at, t, l])), Tup([at, t, ground])];
      && GroundAction(Remove([Tup([at, Tup([t, t]), l])], effs), [flat, ground]).Some?
      && GroundAction(Remove([Tup([at, Tup([t, t]), l])], effs), [flat, ground]).value.preconditions
         == [Tup([at, Tup([flat, flat]), ground])]
    ensures var effs := [Neg(Tup([at, t, l])), Tup([at, t, ground])];
      var pres := [Tup([at, t, l]), Tup([Sym("<="), Tup([t, l]), Num(3)])];
      && GroundAction(Remove(pres, effs), [flat, ground]).Some?
      && GroundAction(Remove(pres, effs), [flat, ground]).value.preconditions
         == [Tup([at, flat, ground]), Tup([Sym("<="), Tup([flat, ground]), Num(3)])]
    ensures var effs := [Neg(Tup([at, t, l])), Tup([at, t, ground])];
      && GroundAction(Remove([Neg(Tup([at, t, l]))], effs), [flat, ground]).Some?
      && GroundAction(Remove([Neg(Tup([at, t, l]))], effs), [flat, ground]).value.preconditions
         == [Tup([Num(-1), Tup([at, flat, ground])])]
  {
    RemoveLeaves();
    var effs := [Neg(Tup([at, t, l])), Tup([at, t, ground])];
    var cmp := Tup([Sym("<="), Tup([t, l]), Num(3)]);
    GroundedConditions(Remove([Tup([at, t, l])], effs), [flat, ground]);
    GroundedConditions(Remove([Tup([at, Tup([t, t]), l])], effs), [flat, ground]);
    GroundedConditions(Remove([Tup([at, t, l]), cmp], effs), [flat, ground]);
    GroundedConditions(Remove([Neg(Tup([at, t, l]))], effs), [flat, ground]);
  }

  /** The grounded effects of the four effect tests. */
  lemma GroundingEffects()
    ensures var e := [Tup([at, t, l])];
      && GroundAction(Remove(e, e), [flat, ground]).Some?
      && GroundAction(Remove(e, e), [flat, ground]).value.effects == [Tup([at, flat, ground])]
    ensures var e := [Tup([at, Tup([t, t]), l])];
      && GroundAction(Remove(e, e), [flat, ground]).Some?
      && GroundAction(Remove(e, e), [flat, ground]).value.effects == [Tup([at, Tup([flat, flat]), ground])]
    ensures var e := [Tup([at, t, l]), Tup([Sym("<="), Tup([t, l]), Num(3)])];
      && GroundAction(Remove(e, e), [flat, ground]).Some?
      && GroundAction(Remove(e, e), [flat, ground]).value.effects
         == [Tup([at, flat, ground]), Tup([Sym("<="), Tup([flat, ground]), Num(3)])]
    ensures var e := [Neg(Tup([at, t, l]))];
      && GroundAction(Remove(e, e), [flat, ground]).Some?
      && GroundAction(Remove(e, e), [flat, ground]).value.effects == [Tup([Num(-1), Tup([at, flat, ground])])]
  {
    RemoveLeaves();
    var cmp := Tup([Sym("<="), Tup([t, l]), Num(3)]);
    GroundedConditions(Remove([Tup([at, t, l])], [Tup([at, t, l])]), [flat, ground]);
    GroundedConditions(Remove([Tup([at, Tup([t, t]), l])], [Tup([at, Tup([t, t]), l])]), [flat, ground]);
    GroundedConditions(Remove([Tup([at, t, l]), cmp], [Tup([at, t, l]), cmp]), [flat, ground]);
    GroundedConditions(Remove([Neg(Tup([at, t, l]))], [Neg(Tup([at, t, l]))]), [flat, ground]);
  }

  lemma Pair(m: map<Term, Term>, a: Term, b: Term)
    requires !HasOther(a) && !HasOther(b)
    ensures !HasOther(Tup([a, b]))
    ensures MapLeaves(m, Tup([a, b])) == Tup([MapLeaves(m, a), MapLeaves(m, b)])
  {
    assert MapLeaves(m, Tup([a, b])).elems == [MapLeaves(m, a), MapLeaves(m, b)];
  }

  lemma Triple(m: map<Term, Term>, a: Term, b: Term, c: Term)
    requires !HasOther(a) && !HasOther(b) && !HasOther(c)
    ensures !HasOther(Tup([a, b, c]))
    ensures MapLeaves(m, Tup([a, b, c])) == Tup([MapLeaves(m, a), MapLeaves(m, b), MapLeaves(m, c)])
  {
    assert MapLeaves(m, Tup([a, b, c])).elems == [MapLeaves(m, a), MapLeaves(m, b), MapLeaves(m, c)];
  }

  const fuel := Sym("fuel")

  function Trivial(): Identity {
    (x: Operand, y: Operand) => x == y
  }

  /** With `fuel` bound to 2: `('<', 'fuel', 3)` holds, `('<', 'fuel', 1)`
      does not; `('=', 'fuel', 2)` holds as a comparison and
      `('=', 'fuel', 3)` does not. */
  lemma ComparingFuel()
    ensures var s := InitialState([BindingFact(fuel, 2)]);
      && PreconditionsOk(s.facts, [Tup([Sym("<"), fuel, Num(3)])])
      && IsTrue(s, [Tup([Sym("<"), fuel, Num(3)])], Trivial())
      && PreconditionsOk(s.facts, [Tup([Sym("<"), fuel, Num(1)])])
      && !IsTrue(s, [Tup([Sym("<"), fuel, Num(1)])], Trivial())
      && PreconditionsOk(s.facts, [BindingFact(fuel, 2)])
      && IsTrue(s, [BindingFact(fuel, 2)], Trivial())
      && !IsTrue(s, [BindingFact(fuel, 3)], Trivial())
  {
    var s := InitialState([BindingFact(fuel, 2)]);
    assert s.facts == {BindingFact(fuel, 2)};
    assert Head(BindingFact(fuel, 2)) == Some(Sym("="));
    assert Bindings(s.facts) == map[fuel := 2];
    var below3 := Tup([Sym("<"), fuel, Num(3)]);
    var below1 := Tup([Sym("<"), fuel, Num(1)]);
    assert NumOp(Sym("<")) == Some(Lt);
    assert IsComparison(below3) && IsComparison(below1);
    IsTrueMeaning(s, [below3], Trivial());
    IsTrueMeaning(s, [below1], Trivial());
    assert below1 in [below1] && !Compare(Bindings(s.facts), below1, Trivial());
    BindingPrecondition(s, fuel, 2, Trivial());
    BindingPrecondition(s, fuel, 3, Trivial());
  }

  /** A negated precondition is read as a literal fact: on a state with no
      facts, `neg(('at', 'flat', 'ground'))` is not satisfied even though
      `('at', 'flat', 'ground')` is absent. */
  lemma NegatedPreconditionOnEmptyState()
    ensures var s := InitialState([]);
      && PreconditionsOk(s.facts, [Neg(Tup([at, flat, ground]))])
      && Tup([at, flat, ground]) !in s.facts
      && !IsTrue(s, [Neg(Tup([at, flat, ground]))], Trivial())
  {
    var s := InitialState([]);
    assert s.facts == {};
    IsTrueMeaning(s, [Neg(Tup([at, flat, ground]))], Trivial());
  }

  /** `('+=', 'fuel', 1)` on a state where `fuel` is 1 gives a state
      where it is 2, one step further along, with a one-action plan. */
  lemma Refuel(a: GroundedAction)
    requires a.effects == [Tup([Sym("+="), fuel, Num(1)])]
    ensures var s := InitialState([BindingFact(fuel, 1)]);
      && FactsOk(s.facts) && EffectsOk(a.effects)
      && Successor(s, a, false).Ok?
      && Successor(s, a, false).value.facts == {BindingFact(fuel, 2)}
      && Plan(Successor(s, a, false).value) == [a]
  {
    var s := InitialState([BindingFact(fuel, 1)]);
    FuelState(1);
    IncrementEffects(a);
    BumpOne(map[fuel := 1], fuel, 1);
    assert map[fuel := 1][fuel := 1 + 1] == map[fuel := 2];
    assert Bump(Bindings(s.facts), NumEffects(a.effects)) == Ok(map[fuel := 2]);
    assert NextPreds(s, a.effects, false) == {};
    assert NumFacts(map[fuel := 2]) == {BindingFact(fuel, 2)} by {
      assert fuel in map[fuel := 2];
      forall x | x in NumFacts(map[fuel := 2]) ensures x == BindingFact(fuel, 2) {
        var f :| f in map[fuel := 2] && x == BindingFact(f, map[fuel := 2][f]);
      }
    }
    assert Successor(s, a, false) == Ok(State({} + NumFacts(map[fuel := 2]), 1, From(s, a)));
  }

  /** The state whose only fact binds `fuel` to `v`. */
  lemma FuelState(v: int)
    ensures var s := InitialState([BindingFact(fuel, v)]);
      FactsOk(s.facts) && Bindings(s.facts) == map[fuel := v] && NonNumeric(s.facts) == {}
  {
    var s := InitialState([BindingFact(fuel, v)]);
    assert s.facts == {BindingFact(fuel, v)};
    assert Head(BindingFact(fuel, v)) == Some(Sym("="));
  }

  /** The single effect `('+=', 'fuel', 1)` is one numeric update. */
  lemma IncrementEffects(a: GroundedAction)
    requires a.effects == [Tup([Sym("+="), fuel, Num(1)])]
    ensures EffectsOk(a.effects)
    ensures Adds(a.effects) == [] && Dels(a.effects) == [] && NumEffects(a.effects) == [(fuel, 1)]
  {
    var e := a.effects[0];
    assert Head(e) == Some(Sym("+=")) && IsIncrement(e) && !IsAdd(e) && !IsDelete(e) && !IsDecrement(e);
    assert a.effects[1..] == [];
    assert Increments(a.effects) == [(fuel, 1)] + Increments([]);
    assert Decrements(a.effects) == [] + Decrements([]);
    assert Adds(a.effects) == [] + Adds([]);
    assert Dels(a.effects) == [] + Dels([]);
  }

  /** Apply raises a KeyError for an increment of an unbound function. */
  lemma RefuelUnbound(a: GroundedAction)
    requires a.effects == [Tup([Sym("+="), fuel, Num(1)])]
    ensures var s := InitialState([]);
      && FactsOk(s.facts) && EffectsOk(a.effects)
      && Successor(s, a, false) == Err(UnboundFunction(fuel))
  {
    var s := InitialState([]);
    assert s.facts == {};
    assert Bindings(s.facts) == map[];
    IncrementEffects(a);
    BumpOne(map[], fuel, 1);
  }

  /** A single numeric update. */
  lemma BumpOne(funcs: map<Term, int>, f: Term, v: int)
    ensures Bump(funcs, [(f, v)]) == if f in funcs then Ok(funcs[f := funcs[f] + v]) else Err(UnboundFunction(f))
  {
    BumpStep(funcs, [(f, v)], 0);
    assert [(f, v)][..1] == [(f, v)];
    assert [(f, v)][..0] == [];
  }
}
