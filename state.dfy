/**
 * World states (`State` in pyddl/pyddl.py): a set of facts, a path cost
 * and a backpointer. Numeric function values live among the facts as
 * `('=', name, value)` tuples.
 */
module States {
  import opened Terms
  import opened Actions

  // ---------------------------------------------------------------------
  // NUM_OPS

  datatype CmpOp = Gt | Lt | Eq | Ge | Le | Is | IsNot

  /** The keys of `NUM_OPS` and the operator each one selects. */
  function NumOp(h: Term): Option<CmpOp> {
    if h == Sym(">") then Some(Gt)
    else if h == Sym("<") then Some(Lt)
    else if h == Sym("=") then Some(Eq)
    else if h == Sym(">=") then Some(Ge)
    else if h == Sym("<=") then Some(Le)
    else if h == Sym("==") then Some(Is)
    else if h == Sym("!=") then Some(IsNot)
    else None
  }

  /** A comparison operand after resolution: an int, or the operand itself
      when it is neither an int literal nor a bound function name. */
  datatype Operand = IntVal(n: int) | Unresolved(t: Term)

  /** Python's `is`, which depends on object identity rather than value;
      callers supply it. `is not` is its negation. */
  type Identity = (Operand, Operand) -> bool

  function Ordered(op: CmpOp): bool {
    op == Gt || op == Lt || op == Ge || op == Le
  }

  /** `NUM_OPS[op](a, b)` */
  function Evaluate(op: CmpOp, a: Operand, b: Operand, ident: Identity): bool
    requires Ordered(op) ==> a.IntVal? && b.IntVal?
  {
    match op
    case Gt => a.n > b.n
    case Lt => a.n < b.n
    case Ge => a.n >= b.n
    case Le => a.n <= b.n
    case Eq => a == b
    case Is => ident(a, b)
    case IsNot => !ident(a, b)
  }

  // ---------------------------------------------------------------------
  // States and their numeric bindings

  datatype Link = Root | From(parent: State, action: GroundedAction)

  /** A search node. Its fields are never updated after construction. */
  datatype State = State(facts: set<Term>, cost: int, predecessor: Link)

  /** `Problem.initial_state`: the initial facts, cost 0, no predecessor. */
  function InitialState(init: seq<Term>): State {
    State(Elems(init), 0, Root)
  }

  /** `pre[0] == "="`: the fact is read as a numeric binding. */
  predicate IsBinding(fact: Term) {
    Head(fact) == Some(Sym("="))
  }

  function BindingFact(f: Term, v: int): Term {
    Tup([Sym("="), f, Num(v)])
  }

  /** What `is_true` and `apply` need of the facts to run without raising
      (every fact can be indexed; every binding unpacks as
      `_, func, num` with an int value) and to be deterministic (at most
      one binding per function). */
  predicate FactsOk(facts: set<Term>) {
    && (forall e :: e in facts ==> Head(e).Some?)
    && (forall e :: e in facts && IsBinding(e) ==> e.Tup? && |e.elems| == 3 && e.elems[2].Num?)
    && (forall e, e' ::
          e in facts && e' in facts && IsBinding(e) && IsBinding(e') && e.elems[1] == e'.elems[1]
          ==> e == e')
  }

  /** `{func: num for _, func, num in num_preds}` */
  function Bindings(facts: set<Term>): map<Term, int>
    requires FactsOk(facts)
  {
    map e | e in facts && IsBinding(e) :: e.elems[1] := e.elems[2].n
  }

  /** `[pre for pre in self.predicates if pre[0] != "="]` */
  function NonNumeric(facts: set<Term>): set<Term> {
    set e | e in facts && !IsBinding(e)
  }

  /** `set(('=', function, value) for function, value in new_functions.items())` */
  function NumFacts(funcs: map<Term, int>): set<Term> {
    set f | f in funcs :: BindingFact(f, funcs[f])
  }

  /** A binding fact is present exactly when its function is bound to its
      value. */
  lemma BindingsMembership(facts: set<Term>, f: Term, v: int)
    requires FactsOk(facts)
    ensures BindingFact(f, v) in facts <==> f in Bindings(facts) && Bindings(facts)[f] == v
  {
    var b := BindingFact(f, v);
    var m := Bindings(facts);
    assert IsBinding(b) && b.elems[1] == f && b.elems[2].n == v;
    if b in facts {
      assert f in m;
      var e :| e in facts && IsBinding(e) && e.elems[1] == f && m[f] == e.elems[2].n;
      assert e == b;
    }
    if f in m && m[f] == v {
      var e :| e in facts && IsBinding(e) && e.elems[1] == f && m[f] == e.elems[2].n;
      assert e == b;
    }
  }

  /** Splitting the facts into the boolean ones and the bindings and
      putting them back loses nothing. */
  lemma {:induction false} Recombine(preds: set<Term>, funcs: map<Term, int>)
    requires forall e :: e in preds ==> Head(e).Some? && !IsBinding(e)
    ensures FactsOk(preds + NumFacts(funcs))
    ensures Bindings(preds + NumFacts(funcs)) == funcs
    ensures NonNumeric(preds + NumFacts(funcs)) == preds
  {
    var facts := preds + NumFacts(funcs);
    forall e | e in facts ensures Head(e).Some? {
      if e !in preds {
        NumFactShape(funcs, e);
      }
    }
    forall e | e in facts && IsBinding(e)
      ensures e.Tup? && |e.elems| == 3 && e.elems[2].Num?
      ensures e.elems[1] in funcs && e.elems[2].n == funcs[e.elems[1]]
    {
      NumFactShape(funcs, e);
    }
    assert FactsOk(facts);
    var m := Bindings(facts);
    forall f | f in funcs ensures f in m && m[f] == funcs[f] {
      var b := BindingFact(f, funcs[f]);
      assert b in NumFacts(funcs);
      assert b in facts && IsBinding(b) && b.elems[1] == f;
    }
    assert m.Keys == funcs.Keys;
    assert m == funcs;
    forall e | e in NonNumeric(facts) ensures e in preds {
      if e !in preds {
        NumFactShape(funcs, e);
      }
    }
  }

  /** Every fact built from a dictionary is a well-formed binding of one of
      its keys to that key's value. */
  lemma NumFactShape(funcs: map<Term, int>, e: Term)
    requires e in NumFacts(funcs)
    ensures IsBinding(e) && Head(e).Some? && e.Tup? && |e.elems| == 3 && e.elems[2].Num?
    ensures e.elems[1] in funcs && e.elems[2].n == funcs[e.elems[1]]
  {
    var f :| f in funcs && e == BindingFact(f, funcs[f]);
  }

  /** Two states are `==` when their fact sets are, whatever their cost and
      predecessor (`State.__eq__`). Since the bindings are facts, numeric
      values take part. */
  predicate Same(s: State, t: State) {
    s.facts == t.facts
  }

  lemma SameBindings(s: State, t: State)
    requires FactsOk(s.facts) && Same(s, t)
    ensures FactsOk(t.facts) && Bindings(s.facts) == Bindings(t.facts)
    ensures NonNumeric(s.facts) == NonNumeric(t.facts)
  {
  }

  // ---------------------------------------------------------------------
  // is_true

  /** The value `_num_pred` compares: an int literal as is, otherwise the
      value bound to the name, otherwise the operand itself. */
  function Resolve(funcs: map<Term, int>, o: Term): Operand {
    if o.Num? then IntVal(o.n) else if o in funcs then IntVal(funcs[o]) else Unresolved(o)
  }

  /** `precond[0] in NUM_OPS` */
  predicate IsComparison(p: Term) {
    Head(p).Some? && NumOp(Head(p).value).Some?
  }

  /** `_num_pred(*precond)` runs: three elements, and both operands of an
      ordering resolve to ints. */
  predicate ComparisonOk(funcs: map<Term, int>, p: Term) {
    && p.Tup? && |p.elems| == 3 && NumOp(p.elems[0]).Some?
    && (Ordered(NumOp(p.elems[0]).value) ==>
          Resolve(funcs, p.elems[1]).IntVal? && Resolve(funcs, p.elems[2]).IntVal?)
  }

  predicate PreconditionOk(funcs: map<Term, int>, p: Term) {
    Head(p).Some? && (IsComparison(p) ==> ComparisonOk(funcs, p))
  }

  predicate PreconditionsOk(facts: set<Term>, pres: seq<Term>) {
    FactsOk(facts) && forall p :: p in pres ==> PreconditionOk(Bindings(facts), p)
  }

  function Compare(funcs: map<Term, int>, p: Term, ident: Identity): bool
    requires ComparisonOk(funcs, p)
  {
    Evaluate(NumOp(p.elems[0]).value, Resolve(funcs, p.elems[1]), Resolve(funcs, p.elems[2]), ident)
  }

  /** `[precond for precond in preconditions if precond[0] not in NUM_OPS]` */
  function AtomTests(pres: seq<Term>): (r: seq<Term>)
    ensures forall p :: p in r <==> p in pres && !IsComparison(p)
  {
    if pres == [] then []
    else (if IsComparison(pres[0]) then [] else [pres[0]]) + AtomTests(pres[1..])
  }

  /** The preconditions whose head is a key of `NUM_OPS`. */
  function ComparisonTests(pres: seq<Term>): (r: seq<Term>)
    ensures forall p :: p in r <==> p in pres && IsComparison(p)
  {
    if pres == [] then []
    else (if IsComparison(pres[0]) then [pres[0]] else []) + ComparisonTests(pres[1..])
  }

  /** `State.is_true(preconditions)` */
  function IsTrue(s: State, pres: seq<Term>, ident: Identity): bool
    requires PreconditionsOk(s.facts, pres)
  {
    var preds := NonNumeric(s.facts);
    var funcs := Bindings(s.facts);
    && (forall p | p in AtomTests(pres) :: p in preds)
    && (forall c | c in ComparisonTests(pres) :: Compare(funcs, c, ident))
  }

  /** What `is_true` decides, precondition by precondition: a comparison
      must hold on the resolved operands; anything else must be one of the
      facts, literally (a `neg(...)` tuple included). */
  lemma IsTrueMeaning(s: State, pres: seq<Term>, ident: Identity)
    requires PreconditionsOk(s.facts, pres)
    ensures IsTrue(s, pres, ident) <==>
      forall p :: p in pres ==>
        if IsComparison(p) then Compare(Bindings(s.facts), p, ident) else p in s.facts
  {
    forall p | p in pres && !IsComparison(p) ensures p in NonNumeric(s.facts) <==> p in s.facts {
      assert NumOp(Sym("=")) == Some(Eq);
    }
  }

  /** `all` of nothing is true: an empty precondition list holds in every
      state. */
  lemma IsTrueEmpty(s: State, ident: Identity)
    requires FactsOk(s.facts)
    ensures PreconditionsOk(s.facts, []) && IsTrue(s, [], ident)
  {
  }

  /** The conditions of a conjunction can be checked in two parts. */
  lemma IsTrueSplit(s: State, pres1: seq<Term>, pres2: seq<Term>, ident: Identity)
    requires PreconditionsOk(s.facts, pres1) && PreconditionsOk(s.facts, pres2)
    ensures PreconditionsOk(s.facts, pres1 + pres2)
    ensures IsTrue(s, pres1 + pres2, ident) <==> IsTrue(s, pres1, ident) && IsTrue(s, pres2, ident)
  {
    IsTrueMeaning(s, pres1, ident);
    IsTrueMeaning(s, pres2, ident);
    IsTrueMeaning(s, pres1 + pres2, ident);
  }

  /** A negated precondition `neg(atom)` holds exactly when the tuple
      `(-1, atom)` is itself a fact; the absence of `atom` plays no part. */
  lemma NegatedPrecondition(s: State, atom: Term, ident: Identity)
    requires FactsOk(s.facts)
    ensures PreconditionsOk(s.facts, [Neg(atom)])
    ensures IsTrue(s, [Neg(atom)], ident) <==> Neg(atom) in s.facts
  {
    IsTrueMeaning(s, [Neg(atom)], ident);
  }

  /** `'='` compares values: a binding fact used as a precondition holds
      exactly when that binding is in the state. */
  lemma BindingPrecondition(s: State, f: Term, v: int, ident: Identity)
    requires FactsOk(s.facts) && !f.Num?
    ensures PreconditionsOk(s.facts, [BindingFact(f, v)])
    ensures IsTrue(s, [BindingFact(f, v)], ident) <==> BindingFact(f, v) in s.facts
  {
    IsTrueMeaning(s, [BindingFact(f, v)], ident);
    BindingsMembership(s.facts, f, v);
  }

  /** `'!='` is always the negation of `'=='` on the same operands. */
  lemma IdentityNegation(s: State, x: Term, y: Term, ident: Identity)
    requires FactsOk(s.facts)
    ensures PreconditionsOk(s.facts, [Tup([Sym("=="), x, y])])
    ensures PreconditionsOk(s.facts, [Tup([Sym("!="), x, y])])
    ensures IsTrue(s, [Tup([Sym("!="), x, y])], ident) == !IsTrue(s, [Tup([Sym("=="), x, y])], ident)
  {
    IsTrueMeaning(s, [Tup([Sym("=="), x, y])], ident);
    IsTrueMeaning(s, [Tup([Sym("!="), x, y])], ident);
  }

  /** More boolean facts and the same bindings never falsify a condition:
      the ground the delete-relaxed (monotone) successor relies on. */
  lemma IsTrueMonotone(s: State, t: State, pres: seq<Term>, ident: Identity)
    requires PreconditionsOk(s.facts, pres) && FactsOk(t.facts)
    requires NonNumeric(s.facts) <= NonNumeric(t.facts)
    requires Bindings(s.facts) == Bindings(t.facts)
    ensures PreconditionsOk(t.facts, pres)
    ensures IsTrue(s, pres, ident) ==> IsTrue(t, pres, ident)
  {
  }

  /** Equal states agree on every condition. */
  lemma IsTrueRespectsSame(s: State, t: State, pres: seq<Term>, ident: Identity)
    requires PreconditionsOk(s.facts, pres) && Same(s, t)
    ensures PreconditionsOk(t.facts, pres)
    ensures IsTrue(s, pres, ident) == IsTrue(t, pres, ident)
  {
  }

  // ---------------------------------------------------------------------
  // apply

  predicate IsDelete(e: Term) { Head(e) == Some(Num(-1)) }
  predicate IsIncrement(e: Term) { Head(e) == Some(Sym("+=")) }
  predicate IsDecrement(e: Term) { Head(e) == Some(Sym("-=")) }

  /** `effect[0] not in [-1, "+=", "-="]` */
  predicate IsAdd(e: Term) {
    !IsDelete(e) && !IsIncrement(e) && !IsDecrement(e)
  }

  /** What `apply` needs of an effect to run without raising: a head; a
      second element for a delete; an int third element for `+=`/`-=`. */
  predicate EffectOk(e: Term) {
    && Head(e).Some?
    && (IsDelete(e) ==> e.Tup? && |e.elems| >= 2)
    && (IsIncrement(e) || IsDecrement(e) ==> e.Tup? && |e.elems| >= 3 && e.elems[2].Num?)
  }

  predicate EffectsOk(effs: seq<Term>) {
    forall i :: 0 <= i < |effs| ==> EffectOk(effs[i])
  }

  /** `add_effects` */
  function Adds(effs: seq<Term>): (r: seq<Term>)
    ensures forall e :: e in r <==> e in effs && IsAdd(e)
  {
    if effs == [] then []
    else (if IsAdd(effs[0]) then [effs[0]] else []) + Adds(effs[1..])
  }

  /** `del_effects`: the atoms inside the delete effects. */
  function Dels(effs: seq<Term>): seq<Term>
    requires EffectsOk(effs)
  {
    if effs == [] then []
    else (if IsDelete(effs[0]) then [effs[0].elems[1]] else []) + Dels(effs[1..])
  }

  /** The `+=` part of `num_effects`. */
  function Increments(effs: seq<Term>): seq<(Term, int)>
    requires EffectsOk(effs)
  {
    if effs == [] then []
    else (if IsIncrement(effs[0]) then [(effs[0].elems[1], effs[0].elems[2].n)] else []) + Increments(effs[1..])
  }

  /** The `-=` part of `num_effects`, negated. */
  function Decrements(effs: seq<Term>): seq<(Term, int)>
    requires EffectsOk(effs)
  {
    if effs == [] then []
    else (if IsDecrement(effs[0]) then [(effs[0].elems[1], -effs[0].elems[2].n)] else []) + Decrements(effs[1..])
  }

  /** `num_effects`: all increments, then all decrements. */
  function NumEffects(effs: seq<Term>): seq<(Term, int)>
    requires EffectsOk(effs)
  {
    Increments(effs) + Decrements(effs)
  }

  /** Every effect falls in exactly one category, so the source's
      `assert len(action.effects) == len(add_effects + del_effects + num_effects)`
      never fires. */
  lemma {:induction false} EffectsPartition(effs: seq<Term>)
    requires EffectsOk(effs)
    ensures |Adds(effs)| + |Dels(effs)| + |NumEffects(effs)| == |effs|
  {
    if effs != [] {
      assert EffectsOk(effs[1..]) by {
        forall e | e in effs[1..] ensures EffectOk(e) {
          assert e in effs;
        }
      }
      EffectsPartition(effs[1..]);
    }
  }

  /** `neg(atom)` is read as deleting `atom` and as nothing else. */
  lemma NegIsDelete(atom: Term)
    ensures EffectsOk([Neg(atom)])
    ensures Dels([Neg(atom)]) == [atom]
    ensures Adds([Neg(atom)]) == [] && NumEffects([Neg(atom)]) == []
  {
    var e := Neg(atom);
    assert e == Tup([Num(-1), atom]);
    assert Head(e) == Some(Num(-1));
    assert IsDelete(e) && !IsAdd(e) && !IsIncrement(e) && !IsDecrement(e);
    assert [e][1..] == [];
    assert Dels([e]) == [atom] + Dels([]);
    assert Increments([e]) == [] + Increments([]);
    assert Decrements([e]) == [] + Decrements([]);
  }

  datatype ApplyError = UnboundFunction(name: Term)   // KeyError from `new_functions[function]`

  /** The loop `for function, value in num_effects: new_functions[function] += value`,
      over a prefix of the numeric effects. */
  function Bump(funcs: map<Term, int>, nes: seq<(Term, int)>): Result<map<Term, int>, ApplyError>
    decreases |nes|
  {
    if nes == [] then Ok(funcs)
    else match Bump(funcs, nes[..|nes| - 1])
      case Err(e) => Err(e)
      case Ok(m) =>
        var (f, v) := nes[|nes| - 1];
        if f in m then Ok(m[f := m[f] + v]) else Err(UnboundFunction(f))
  }

  /** The net change the numeric effects make to `f`. */
  function Delta(nes: seq<(Term, int)>, f: Term): int {
    if nes == [] then 0 else (if nes[0].0 == f then nes[0].1 else 0) + Delta(nes[1..], f)
  }

  lemma {:induction false} DeltaConcat(a: seq<(Term, int)>, b: seq<(Term, int)>, f: Term)
    ensures Delta(a + b, f) == Delta(a, f) + Delta(b, f)
  {
    if a == [] {
      assert a + b == b;
    } else {
      assert (a + b)[0] == a[0];
      assert (a + b)[1..] == a[1..] + b;
      DeltaConcat(a[1..], b, f);
    }
  }

  /** The updates keep the set of bound functions and add up. */
  lemma {:induction false} BumpAdds(funcs: map<Term, int>, nes: seq<(Term, int)>)
    requires Bump(funcs, nes).Ok?
    ensures Bump(funcs, nes).value.Keys == funcs.Keys
    ensures forall f :: f in funcs ==> Bump(funcs, nes).value[f] == funcs[f] + Delta(nes, f)
    decreases |nes|
  {
    if nes != [] {
      var init := nes[..|nes| - 1];
      var (g, v) := nes[|nes| - 1];
      BumpAdds(funcs, init);
      var m := Bump(funcs, init).value;
      assert g in m && Bump(funcs, nes).value == m[g := m[g] + v];
      assert nes == init + [(g, v)];
      assert [(g, v)][1..] == [];
      forall f | f in funcs ensures Bump(funcs, nes).value[f] == funcs[f] + Delta(nes, f) {
        DeltaConcat(init, [(g, v)], f);
        assert Delta([(g, v)], f) == (if g == f then v else 0) + Delta([], f);
      }
    }
  }

  /** The updates fail exactly when one names an unbound function. */
  lemma {:induction false} BumpFails(funcs: map<Term, int>, nes: seq<(Term, int)>)
    ensures Bump(funcs, nes).Err? <==> exists i :: 0 <= i < |nes| && nes[i].0 !in funcs
    decreases |nes|
  {
    if nes != [] {
      var init := nes[..|nes| - 1];
      BumpFails(funcs, init);
      if Bump(funcs, init).Ok? {
        BumpAdds(funcs, init);
      }
      if exists i :: 0 <= i < |init| && init[i].0 !in funcs {
        var i :| 0 <= i < |init| && init[i].0 !in funcs;
        assert nes[i] == init[i];
      }
      if exists i :: 0 <= i < |nes| && nes[i].0 !in funcs {
        var i :| 0 <= i < |nes| && nes[i].0 !in funcs;
        if i < |init| {
          assert init[i] == nes[i];
        }
      }
    }
  }

  /** The facts of the successor, before its numeric bindings are added:
      the old boolean facts plus the adds, minus the deletes unless
      monotone. */
  function NextPreds(s: State, effs: seq<Term>, monotone: bool): set<Term>
    requires EffectsOk(effs)
  {
    var grown := NonNumeric(s.facts) + Elems(Adds(effs));
    if monotone then grown else grown - Elems(Dels(effs))
  }

  /** `State.apply(action, monotone)`, as a value. */
  function Successor(s: State, a: GroundedAction, monotone: bool): Result<State, ApplyError>
    requires FactsOk(s.facts) && EffectsOk(a.effects)
  {
    match Bump(Bindings(s.facts), NumEffects(a.effects))
    case Err(e) => Err(e)
    case Ok(funcs) => Ok(State(NextPreds(s, a.effects, monotone) + NumFacts(funcs), s.cost + 1, From(s, a)))
  }

  /** `State.apply`: it updates a local set of facts and a local dictionary
      of function values in place. */
  method Apply(s: State, a: GroundedAction, monotone: bool) returns (r: Result<State, ApplyError>)
    requires FactsOk(s.facts) && EffectsOk(a.effects)
    ensures r == Successor(s, a, monotone)
  {
    var newPreds := NonNumeric(s.facts);
    var newFunctions := Bindings(s.facts);
    var addEffects := Adds(a.effects);
    var delEffects := Dels(a.effects);
    var numEffects := NumEffects(a.effects);
    EffectsPartition(a.effects);
    assert |a.effects| == |addEffects| + |delEffects| + |numEffects|;
    newPreds := newPreds + Elems(addEffects);
    if !monotone {
      newPreds := newPreds - Elems(delEffects);
    }
    var i := 0;
    while i < |numEffects|
      invariant 0 <= i <= |numEffects|
      invariant Bump(Bindings(s.facts), numEffects[..i]) == Ok(newFunctions)
    {
      BumpStep(Bindings(s.facts), numEffects, i);
      var (fn, value) := numEffects[i];
      if fn !in newFunctions {
        BumpStops(Bindings(s.facts), numEffects, i + 1);
        return Err(UnboundFunction(fn));
      }
      newFunctions := newFunctions[fn := newFunctions[fn] + value];
      i := i + 1;
    }
    assert numEffects[..i] == numEffects;
    newPreds := newPreds + NumFacts(newFunctions);
    r := Ok(State(newPreds, s.cost + 1, From(s, a)));
  }

  /** One more numeric effect: one more dictionary update. */
  lemma BumpStep(funcs: map<Term, int>, nes: seq<(Term, int)>, i: nat)
    requires i < |nes|
    ensures Bump(funcs, nes[..i + 1]) ==
      match Bump(funcs, nes[..i])
      case Err(e) => Err(e)
      case Ok(m) => if nes[i].0 in m then Ok(m[nes[i].0 := m[nes[i].0] + nes[i].1]) else Err(UnboundFunction(nes[i].0))
  {
    assert nes[..i + 1][..i] == nes[..i];
    assert nes[..i + 1][i] == nes[i];
  }

  lemma {:induction false} BumpStops(funcs: map<Term, int>, nes: seq<(Term, int)>, n: nat)
    requires n <= |nes|
    requires Bump(funcs, nes[..n]).Err?
    ensures Bump(funcs, nes) == Bump(funcs, nes[..n])
    decreases |nes| - n
  {
    if n < |nes| {
      assert nes[..n + 1][..n] == nes[..n];
      BumpStops(funcs, nes, n + 1);
    } else {
      assert nes[..n] == nes;
    }
  }

  // ---------------------------------------------------------------------
  // What apply promises

  /** No add effect is itself a binding fact. */
  predicate NoBindingAdds(effs: seq<Term>) {
    forall e :: e in effs && IsAdd(e) ==> !IsBinding(e)
  }

  /** The boolean facts of the successor are the old ones plus the adds,
      minus the deletes unless monotone (so a delete beats an add of the
      same atom); the successor is again well formed. */
  lemma SuccessorFacts(s: State, a: GroundedAction, monotone: bool)
    requires FactsOk(s.facts) && EffectsOk(a.effects) && NoBindingAdds(a.effects)
    requires Successor(s, a, monotone).Ok?
    ensures var t := Successor(s, a, monotone).value;
      && FactsOk(t.facts)
      && NonNumeric(t.facts) == (if monotone then NonNumeric(s.facts) + Elems(Adds(a.effects))
                                 else (NonNumeric(s.facts) + Elems(Adds(a.effects))) - Elems(Dels(a.effects)))
  {
    var preds := NextPreds(s, a.effects, monotone);
    var funcs := Bump(Bindings(s.facts), NumEffects(a.effects)).value;
    forall e | e in preds ensures Head(e).Some? && !IsBinding(e) {
      if e !in NonNumeric(s.facts) {
        assert e in Adds(a.effects);
      }
    }
    Recombine(preds, funcs);
  }

  /** A monotone successor never loses a boolean fact. */
  lemma MonotoneKeepsFacts(s: State, a: GroundedAction)
    requires FactsOk(s.facts) && EffectsOk(a.effects)
    requires Successor(s, a, true).Ok?
    ensures NonNumeric(s.facts) <= Successor(s, a, true).value.facts
  {
  }

  /** Each function keeps its binding and moves by its `+=` deltas minus
      its `-=` deltas; exactly one binding per function already bound. */
  lemma SuccessorNumbers(s: State, a: GroundedAction, monotone: bool)
    requires FactsOk(s.facts) && EffectsOk(a.effects) && NoBindingAdds(a.effects)
    requires Successor(s, a, monotone).Ok?
    ensures var t := Successor(s, a, monotone).value;
      && FactsOk(t.facts)
      && Bindings(t.facts).Keys == Bindings(s.facts).Keys
      && forall f :: f in Bindings(s.facts) ==>
           Bindings(t.facts)[f] == Bindings(s.facts)[f] + Raised(a.effects, f) - Lowered(a.effects, f)
  {
    var funcs := Bindings(s.facts);
    var nes := NumEffects(a.effects);
    var preds := NextPreds(s, a.effects, monotone);
    forall e | e in preds ensures Head(e).Some? && !IsBinding(e) {
      if e !in NonNumeric(s.facts) {
        assert e in Adds(a.effects);
      }
    }
    Recombine(preds, Bump(funcs, nes).value);
    BumpAdds(funcs, nes);
    forall f | f in funcs ensures Delta(nes, f) == Raised(a.effects, f) - Lowered(a.effects, f) {
      DeltaConcat(Increments(a.effects), Decrements(a.effects), f);
      IncrementsDelta(a.effects, f);
      DecrementsDelta(a.effects, f);
    }
  }

  /** The sum of the `+=` deltas on `f`, in effect order. */
  function Raised(effs: seq<Term>, f: Term): int
    requires EffectsOk(effs)
  {
    if effs == [] then 0
    else (if IsIncrement(effs[0]) && effs[0].elems[1] == f then effs[0].elems[2].n else 0) + Raised(effs[1..], f)
  }

  /** The sum of the `-=` deltas on `f`, in effect order. */
  function Lowered(effs: seq<Term>, f: Term): int
    requires EffectsOk(effs)
  {
    if effs == [] then 0
    else (if IsDecrement(effs[0]) && effs[0].elems[1] == f then effs[0].elems[2].n else 0) + Lowered(effs[1..], f)
  }

  lemma {:induction false} IncrementsDelta(effs: seq<Term>, f: Term)
    requires EffectsOk(effs)
    ensures Delta(Increments(effs), f) == Raised(effs, f)
  {
    if effs != [] {
      var head := if IsIncrement(effs[0]) then [(effs[0].elems[1], effs[0].elems[2].n)] else [];
      IncrementsDelta(effs[1..], f);
      DeltaConcat(head, Increments(effs[1..]), f);
    }
  }

  lemma {:induction false} DecrementsDelta(effs: seq<Term>, f: Term)
    requires EffectsOk(effs)
    ensures Delta(Decrements(effs), f) == -Lowered(effs, f)
  {
    if effs != [] {
      var head := if IsDecrement(effs[0]) then [(effs[0].elems[1], -effs[0].elems[2].n)] else [];
      DecrementsDelta(effs[1..], f);
      DeltaConcat(head, Decrements(effs[1..]), f);
    }
  }

  /** `apply` raises exactly when a `+=` or `-=` effect names a function
      the state does not bind. */
  lemma SuccessorFails(s: State, a: GroundedAction, monotone: bool)
    requires FactsOk(s.facts) && EffectsOk(a.effects)
    ensures Successor(s, a, monotone).Err? <==>
      exists e :: e in a.effects && (IsIncrement(e) || IsDecrement(e)) && e.elems[1] !in Bindings(s.facts)
  {
    var funcs := Bindings(s.facts);
    var nes := NumEffects(a.effects);
    BumpFails(funcs, nes);
    if exists i :: 0 <= i < |nes| && nes[i].0 !in funcs {
      var i :| 0 <= i < |nes| && nes[i].0 !in funcs;
      NumEffectsFrom(a.effects, nes[i]);
    }
    if exists e :: e in a.effects && (IsIncrement(e) || IsDecrement(e)) && e.elems[1] !in funcs {
      var e :| e in a.effects && (IsIncrement(e) || IsDecrement(e)) && e.elems[1] !in funcs;
      NumEffectsOf(a.effects, e);
      var i :| 0 <= i < |nes| && nes[i].0 == e.elems[1];
    }
  }

  lemma {:induction false} NumEffectsFrom(effs: seq<Term>, ne: (Term, int))
    requires EffectsOk(effs)
    requires ne in NumEffects(effs)
    ensures exists e :: e in effs && (IsIncrement(e) || IsDecrement(e)) && e.elems[1] == ne.0
  {
    if effs != [] {
      var e0 := effs[0];
      assert EffectsOk(effs[1..]) by {
        forall e | e in effs[1..] ensures EffectOk(e) { assert e in effs; }
      }
      var inc0 := if IsIncrement(e0) then [(e0.elems[1], e0.elems[2].n)] else [];
      var dec0 := if IsDecrement(e0) then [(e0.elems[1], -e0.elems[2].n)] else [];
      assert NumEffects(effs) == inc0 + Increments(effs[1..]) + (dec0 + Decrements(effs[1..]));
      if ne in inc0 || ne in dec0 {
        assert e0 in effs;
      } else {
        assert ne in NumEffects(effs[1..]);
        NumEffectsFrom(effs[1..], ne);
        var e :| e in effs[1..] && (IsIncrement(e) || IsDecrement(e)) && e.elems[1] == ne.0;
        assert e in effs;
      }
    }
  }

  lemma {:induction false} NumEffectsOf(effs: seq<Term>, e: Term)
    requires EffectsOk(effs)
    requires e in effs && (IsIncrement(e) || IsDecrement(e))
    ensures exists i :: 0 <= i < |NumEffects(effs)| && NumEffects(effs)[i].0 == e.elems[1]
  {
    var e0 := effs[0];
    assert EffectsOk(effs[1..]) by {
      forall x | x in effs[1..] ensures EffectOk(x) { assert x in effs; }
    }
    var inc0 := if IsIncrement(e0) then [(e0.elems[1], e0.elems[2].n)] else [];
    var dec0 := if IsDecrement(e0) then [(e0.elems[1], -e0.elems[2].n)] else [];
    var nes := NumEffects(effs);
    assert nes == inc0 + Increments(effs[1..]) + (dec0 + Decrements(effs[1..]));
    if e == e0 {
      if IsIncrement(e0) {
        assert nes[0].0 == e.elems[1];
      } else {
        assert nes[|inc0 + Increments(effs[1..])|].0 == e.elems[1];
      }
    } else {
      assert e in effs[1..];
      NumEffectsOf(effs[1..], e);
      var i :| 0 <= i < |NumEffects(effs[1..])| && NumEffects(effs[1..])[i].0 == e.elems[1];
      var incs := Increments(effs[1..]);
      if i < |incs| {
        assert nes[|inc0| + i] == incs[i];
      } else {
        assert nes[|inc0| + |incs| + |dec0| + (i - |incs|)] == NumEffects(effs[1..])[i];
      }
    }
  }

  /** `apply` reads only the facts: equal states have equal successors. */
  lemma SuccessorRespectsSame(s: State, t: State, a: GroundedAction, monotone: bool)
    requires FactsOk(s.facts) && EffectsOk(a.effects) && Same(s, t)
    ensures FactsOk(t.facts)
    ensures Successor(s, a, monotone).Ok? == Successor(t, a, monotone).Ok?
    ensures Successor(s, a, monotone).Ok? ==>
      Same(Successor(s, a, monotone).value, Successor(t, a, monotone).value)
  {
  }
}
