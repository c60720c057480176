/**
 * `Domain.ground`: every schema is grounded over the Cartesian product of
 * the object lists of its parameter types, filtered by the `unique` and
 * `no_permute` flags.
 */
module Domains {
  import opened Terms
  import opened Actions

  datatype Domain = Domain(actions: seq<Action>)

  datatype GroundError =
    | MissingType(ty: Term)   // KeyError from `objects[t]`
    | InvalidLeaf             // "Invalid Case predicate type" from the grounder

  // ---------------------------------------------------------------------
  // The candidate bindings

  /** `[objects[t] for t in action.types]`, failing at the first type that
      has no object list. */
  function ParamLists(types: seq<Term>, objects: map<Term, seq<Term>>): (r: Result<seq<seq<Term>>, GroundError>)
    ensures r.Ok? <==> forall i :: 0 <= i < |types| ==> types[i] in objects
    ensures r.Ok? ==> |r.value| == |types|
    ensures r.Ok? ==> forall i :: 0 <= i < |types| ==> r.value[i] == objects[types[i]]
    ensures r.Err? ==> r.error.MissingType? && r.error.ty in types && r.error.ty !in objects
  {
    if types == [] then Ok([])
    else if types[0] !in objects then Err(MissingType(types[0]))
    else match ParamLists(types[1..], objects)
      case Err(e) => Err(e)
      case Ok(rest) => Ok([objects[types[0]]] + rest)
  }

  /** `[[x] + p for p in ps]` for each `x` of `xs` in turn. */
  function Prepend(xs: seq<Term>, ps: seq<seq<Term>>): (r: seq<seq<Term>>)
    ensures |r| == |xs| * |ps|
  {
    if xs == [] then []
    else seq(|ps|, j requires 0 <= j < |ps| => [xs[0]] + ps[j]) + Prepend(xs[1..], ps)
  }

  /** `itertools.product(*lists)`: the leftmost list varies slowest. */
  function Product(lists: seq<seq<Term>>): seq<seq<Term>> {
    if lists == [] then [[]] else Prepend(lists[0], Product(lists[1..]))
  }

  /** The number of bindings: the product of the list lengths. */
  function Combinations(lists: seq<seq<Term>>): nat {
    if lists == [] then 1 else |lists[0]| * Combinations(lists[1..])
  }

  lemma {:induction false} ProductSize(lists: seq<seq<Term>>)
    ensures |Product(lists)| == Combinations(lists)
  {
    if lists != [] {
      ProductSize(lists[1..]);
    }
  }

  lemma {:induction false} PrependAt(xs: seq<Term>, ps: seq<seq<Term>>, i: nat, j: nat)
    requires i < |xs| && j < |ps|
    ensures i * |ps| + j < |Prepend(xs, ps)|
    ensures Prepend(xs, ps)[i * |ps| + j] == [xs[i]] + ps[j]
  {
    if i > 0 {
      PrependAt(xs[1..], ps, i - 1, j);
      assert i * |ps| + j == |ps| + ((i - 1) * |ps| + j);
    }
  }

  /** The order of `product`: binding number `i * |rest| + j` pairs the
      `i`-th object of the first list with the `j`-th binding of the rest. */
  lemma ProductOrder(lists: seq<seq<Term>>, i: nat, j: nat)
    requires lists != []
    requires i < |lists[0]| && j < |Product(lists[1..])|
    ensures var rest := Product(lists[1..]);
      i * |rest| + j < |Product(lists)| && Product(lists)[i * |rest| + j] == [lists[0][i]] + rest[j]
  {
    PrependAt(lists[0], Product(lists[1..]), i, j);
  }

  predicate Fits(b: seq<Term>, lists: seq<seq<Term>>) {
    |b| == |lists| && forall k :: 0 <= k < |b| ==> b[k] in lists[k]
  }

  lemma {:induction false} PrependMembers(xs: seq<Term>, ps: seq<seq<Term>>, b: seq<Term>)
    ensures b in Prepend(xs, ps) <==> |b| > 0 && b[0] in xs && b[1..] in ps
  {
    if xs != [] {
      PrependMembers(xs[1..], ps, b);
      var front := seq(|ps|, j requires 0 <= j < |ps| => [xs[0]] + ps[j]);
      assert Prepend(xs, ps) == front + Prepend(xs[1..], ps);
      if b in front {
        var j :| 0 <= j < |ps| && front[j] == b;
        assert b[1..] == ps[j];
      }
      if |b| > 0 && b[0] == xs[0] && b[1..] in ps {
        var j :| 0 <= j < |ps| && ps[j] == b[1..];
        assert front[j] == b;
      }
      if |b| > 0 && b[0] in xs && b[0] != xs[0] {
        assert b[0] in xs[1..];
      }
    }
  }

  /** A sequence is produced by `product` iff it picks one object from each
      list, in list order. */
  lemma {:induction false} ProductMembers(lists: seq<seq<Term>>, b: seq<Term>)
    ensures b in Product(lists) <==> Fits(b, lists)
  {
    if lists == [] {
    } else {
      PrependMembers(lists[0], Product(lists[1..]), b);
      if |b| > 0 {
        ProductMembers(lists[1..], b[1..]);
        if Fits(b, lists) {
          forall k | 0 <= k < |b| - 1 ensures b[1..][k] in lists[1..][k] {
            assert b[k + 1] in lists[k + 1];
          }
        }
        if b[0] in lists[0] && Fits(b[1..], lists[1..]) {
          forall k | 0 <= k < |b| ensures b[k] in lists[k] {
            if k > 0 {
              assert b[1..][k - 1] in lists[1..][k - 1];
            }
          }
        }
      }
    }
  }

  // ---------------------------------------------------------------------
  // The `unique` / `no_permute` filter

  /** The state of the inner loop after some prefix of the candidates:
      the accepted bindings, in order, and the set `param_combos`. */
  datatype Filtered = Filtered(accepted: seq<seq<Term>>, combos: set<set<Term>>)

  /** The inner loop of `Domain.ground`, one candidate at a time: a binding
      that repeats an object is skipped under `unique`; a binding whose
      object set is already recorded is skipped under `no_permute`; any
      other is accepted and its object set recorded. */
  function Scan(unique: bool, noPermute: bool, candidates: seq<seq<Term>>): Filtered
    decreases |candidates|
  {
    if candidates == [] then Filtered([], {})
    else
      var prev := Scan(unique, noPermute, candidates[..|candidates| - 1]);
      var params := candidates[|candidates| - 1];
      var paramSet := Elems(params);
      if unique && |paramSet| != |params| then prev
      else if noPermute && paramSet in prev.combos then prev
      else Filtered(prev.accepted + [params], prev.combos + {paramSet})
  }

  /** Bindings rejected by `unique` are never recorded: the recorded sets
      are exactly the object sets of the accepted bindings. */
  lemma {:induction false} ScanRecords(unique: bool, noPermute: bool, candidates: seq<seq<Term>>)
    ensures Scan(unique, noPermute, candidates).combos ==
      set b | b in Scan(unique, noPermute, candidates).accepted :: Elems(b)
    decreases |candidates|
  {
    if candidates != [] {
      ScanRecords(unique, noPermute, candidates[..|candidates| - 1]);
    }
  }

  /** Under `unique`, no accepted binding repeats an object. */
  lemma {:induction false} ScanUnique(noPermute: bool, candidates: seq<seq<Term>>)
    ensures forall b :: b in Scan(true, noPermute, candidates).accepted ==> Distinct(b)
    decreases |candidates|
  {
    if candidates != [] {
      var params := candidates[|candidates| - 1];
      ScanUnique(noPermute, candidates[..|candidates| - 1]);
      ElemsCardinality(params);
    }
  }

  /** Under `no_permute`, no two accepted bindings have the same object set. */
  lemma {:induction false} ScanNoPermute(unique: bool, candidates: seq<seq<Term>>)
    ensures var acc := Scan(unique, true, candidates).accepted;
      forall i, j :: 0 <= i < j < |acc| ==> Elems(acc[i]) != Elems(acc[j])
    decreases |candidates|
  {
    if candidates != [] {
      var init := candidates[..|candidates| - 1];
      ScanNoPermute(unique, init);
      ScanRecords(unique, true, init);
      var prev := Scan(unique, true, init);
      var acc := Scan(unique, true, candidates).accepted;
      if |acc| > |prev.accepted| {
        forall i | 0 <= i < |prev.accepted| ensures Elems(acc[i]) != Elems(acc[|acc| - 1]) {
          assert Elems(prev.accepted[i]) in prev.combos;
        }
      }
    }
  }

  /** Without either flag every candidate is accepted, in order. */
  lemma {:induction false} ScanKeepsAll(candidates: seq<seq<Term>>)
    ensures Scan(false, false, candidates).accepted == candidates
    decreases |candidates|
  {
    if candidates != [] {
      var n := |candidates| - 1;
      ScanKeepsAll(candidates[..n]);
      assert candidates[..n] + [candidates[n]] == candidates;
    }
  }

  /** A candidate passes the `unique` test. */
  predicate Admissible(unique: bool, params: seq<Term>) {
    !unique || |Elems(params)| == |params|
  }

  /** Reference acceptance rule, stated on positions: candidate `k` is
      accepted iff it passes `unique` and, under `no_permute`, no earlier
      candidate that passes `unique` has the same object set. The first
      binding in product order wins. */
  predicate AcceptedAt(unique: bool, noPermute: bool, candidates: seq<seq<Term>>, k: nat)
    requires k < |candidates|
  {
    && Admissible(unique, candidates[k])
    && (noPermute ==> forall j :: 0 <= j < k && Admissible(unique, candidates[j]) ==>
          Elems(candidates[j]) != Elems(candidates[k]))
  }

  /** The candidates among the first `n` that the reference rule accepts. */
  function Keep(unique: bool, noPermute: bool, candidates: seq<seq<Term>>, n: nat): seq<seq<Term>>
    requires n <= |candidates|
  {
    if n == 0 then []
    else
      var tail := if AcceptedAt(unique, noPermute, candidates, n - 1) then [candidates[n - 1]] else [];
      Keep(unique, noPermute, candidates, n - 1) + tail
  }

  /** The object sets of the admissible candidates among the first `n`. */
  function AdmissibleSets(unique: bool, candidates: seq<seq<Term>>, n: nat): set<set<Term>>
    requires n <= |candidates|
  {
    set j | 0 <= j < n && Admissible(unique, candidates[j]) :: Elems(candidates[j])
  }

  lemma {:induction false} ScanPrefix(unique: bool, noPermute: bool, candidates: seq<seq<Term>>, n: nat)
    requires n <= |candidates|
    ensures Scan(unique, noPermute, candidates[..n]) ==
      Filtered(Keep(unique, noPermute, candidates, n), AdmissibleSets(unique, candidates, n))
  {
    if n > 0 {
      ScanPrefix(unique, noPermute, candidates, n - 1);
      assert candidates[..n][..n - 1] == candidates[..n - 1];
      var params := candidates[n - 1];
      var before := AdmissibleSets(unique, candidates, n - 1);
      var after := AdmissibleSets(unique, candidates, n);
      if Admissible(unique, params) {
        assert after == before + {Elems(params)};
        if noPermute {
          if Elems(params) in before {
            var j :| 0 <= j < n - 1 && Admissible(unique, candidates[j]) && Elems(candidates[j]) == Elems(params);
            assert !AcceptedAt(unique, noPermute, candidates, n - 1);
          } else {
            forall j | 0 <= j < n - 1 && Admissible(unique, candidates[j])
              ensures Elems(candidates[j]) != Elems(params)
            {
              assert Elems(candidates[j]) in before;
            }
          }
        }
      } else {
        assert after == before;
      }
    }
  }

  /** The filter loop accepts exactly what the reference rule accepts, and
      records exactly the object sets of the admissible candidates. */
  lemma ScanMatchesReference(unique: bool, noPermute: bool, candidates: seq<seq<Term>>)
    ensures Scan(unique, noPermute, candidates).accepted == Keep(unique, noPermute, candidates, |candidates|)
    ensures Scan(unique, noPermute, candidates).combos == AdmissibleSets(unique, candidates, |candidates|)
  {
    ScanPrefix(unique, noPermute, candidates, |candidates|);
    assert candidates[..|candidates|] == candidates;
  }

  // ---------------------------------------------------------------------
  // Grounding a schema and a domain

  /** `action.ground(*params)` for each accepted binding, in order; the
      grounder's exception surfaces as InvalidLeaf. */
  function GroundBindings(a: Action, bindings: seq<seq<Term>>): (r: Result<seq<GroundedAction>, GroundError>)
    decreases |bindings|
  {
    if bindings == [] then Ok([])
    else match GroundBindings(a, bindings[..|bindings| - 1])
      case Err(e) => Err(e)
      case Ok(done) =>
        match GroundAction(a, bindings[|bindings| - 1])
        case None => Err(InvalidLeaf)
        case Some(g) => Ok(done + [g])
  }

  lemma {:induction false} GroundBindingsAt(a: Action, bindings: seq<seq<Term>>)
    requires Groundable(a)
    ensures GroundBindings(a, bindings).Ok?
    ensures |GroundBindings(a, bindings).value| == |bindings|
    ensures forall i :: 0 <= i < |bindings| ==>
      GroundBindings(a, bindings).value[i] == GroundAction(a, bindings[i]).value
    decreases |bindings|
  {
    if bindings != [] {
      GroundBindingsAt(a, bindings[..|bindings| - 1]);
    }
  }

  /** One iteration of the outer loop of `Domain.ground`. */
  function GroundSchema(a: Action, objects: map<Term, seq<Term>>): Result<seq<GroundedAction>, GroundError> {
    match ParamLists(a.types, objects)
    case Err(e) => Err(e)
    case Ok(lists) => GroundBindings(a, Scan(a.unique, a.noPermute, Product(lists)).accepted)
  }

  /** `Domain.ground`: the schemas in declaration order, each contributing
      its grounded actions in product order; the first failure aborts. */
  function GroundAll(actions: seq<Action>, objects: map<Term, seq<Term>>): Result<seq<GroundedAction>, GroundError>
    decreases |actions|
  {
    if actions == [] then Ok([])
    else match GroundAll(actions[..|actions| - 1], objects)
      case Err(e) => Err(e)
      case Ok(done) =>
        match GroundSchema(actions[|actions| - 1], objects)
        case Err(e) => Err(e)
        case Ok(gs) => Ok(done + gs)
  }

  /** `Domain.ground(objects)`: the outer loop over the schemas. */
  method GroundDomain(d: Domain, objects: map<Term, seq<Term>>) returns (r: Result<seq<GroundedAction>, GroundError>)
    ensures r == GroundAll(d.actions, objects)
  {
    var grounded: seq<GroundedAction> := [];
    var i := 0;
    while i < |d.actions|
      invariant 0 <= i <= |d.actions|
      invariant GroundAll(d.actions[..i], objects) == Ok(grounded)
    {
      assert d.actions[..i + 1][..i] == d.actions[..i];
      var action := d.actions[i];
      var paramLists := ParamLists(action.types, objects);
      if paramLists.Err? {
        GroundAllStops(d.actions, objects, i + 1);
        return Err(paramLists.error);
      }
      var schemaActions := GroundCandidates(action, Product(paramLists.value));
      if schemaActions.Err? {
        GroundAllStops(d.actions, objects, i + 1);
        return Err(schemaActions.error);
      }
      grounded := grounded + schemaActions.value;
      i := i + 1;
    }
    assert d.actions[..i] == d.actions;
    r := Ok(grounded);
  }

  /** The inner loop of `Domain.ground` over `product(*param_lists)`,
      with its `param_combos` set. */
  method GroundCandidates(action: Action, candidates: seq<seq<Term>>) returns (r: Result<seq<GroundedAction>, GroundError>)
    ensures r == GroundBindings(action, Scan(action.unique, action.noPermute, candidates).accepted)
  {
    var grounded: seq<GroundedAction> := [];
    var paramCombos: set<set<Term>> := {};
    ghost var accepted: seq<seq<Term>> := [];
    var j := 0;
    while j < |candidates|
      invariant 0 <= j <= |candidates|
      invariant Scan(action.unique, action.noPermute, candidates[..j]) == Filtered(accepted, paramCombos)
      invariant GroundBindings(action, accepted) == Ok(grounded)
    {
      assert candidates[..j + 1][..j] == candidates[..j];
      var params := candidates[j];
      var paramSet := Elems(params);
      if action.unique && |paramSet| != |params| {
      } else if action.noPermute && paramSet in paramCombos {
      } else {
        paramCombos := paramCombos + {paramSet};
        var g := GroundAction(action, params);
        if g.None? {
          GroundErrorPersists(action, accepted + [params], candidates, j + 1);
          return Err(InvalidLeaf);
        }
        accepted := accepted + [params];
        grounded := grounded + [g.value];
      }
      j := j + 1;
    }
    assert candidates[..j] == candidates;
    r := Ok(grounded);
  }

  /** Once a schema fails, so does the whole domain. */
  lemma {:induction false} GroundAllStops(actions: seq<Action>, objects: map<Term, seq<Term>>, n: nat)
    requires n <= |actions|
    requires GroundAll(actions[..n], objects).Err?
    ensures GroundAll(actions, objects) == GroundAll(actions[..n], objects)
    decreases |actions| - n
  {
    if n < |actions| {
      assert actions[..n + 1][..n] == actions[..n];
      GroundAllStops(actions, objects, n + 1);
    } else {
      assert actions[..n] == actions;
    }
  }

  /** Once a binding fails to ground, so does the whole schema. */
  lemma GroundErrorPersists(a: Action, accepted: seq<seq<Term>>, candidates: seq<seq<Term>>, n: nat)
    requires n <= |candidates|
    requires Scan(a.unique, a.noPermute, candidates[..n]).accepted == accepted
    requires GroundBindings(a, accepted).Err?
    ensures GroundBindings(a, Scan(a.unique, a.noPermute, candidates).accepted) == Err(InvalidLeaf)
  {
    if Groundable(a) {
      GroundBindingsAt(a, accepted);
    }
    assert !Groundable(a);
    var all := Scan(a.unique, a.noPermute, candidates).accepted;
    ScanGrows(a.unique, a.noPermute, candidates, n);
    GroundBindingsFails(a, all);
  }

  lemma {:induction false} ScanGrows(unique: bool, noPermute: bool, candidates: seq<seq<Term>>, n: nat)
    requires n <= |candidates|
    ensures |Scan(unique, noPermute, candidates[..n]).accepted| <= |Scan(unique, noPermute, candidates).accepted|
    decreases |candidates| - n
  {
    if n < |candidates| {
      ScanGrows(unique, noPermute, candidates, n + 1);
      assert candidates[..n + 1][..n] == candidates[..n];
    } else {
      assert candidates[..n] == candidates;
    }
  }

  lemma {:induction false} GroundBindingsFails(a: Action, bindings: seq<seq<Term>>)
    requires !Groundable(a)
    ensures bindings == [] ==> GroundBindings(a, bindings) == Ok([])
    ensures bindings != [] ==> GroundBindings(a, bindings) == Err(InvalidLeaf)
    decreases |bindings|
  {
    if bindings != [] {
      GroundBindingsFails(a, bindings[..|bindings| - 1]);
    }
  }

  /** Without `unique` or `no_permute`, a schema whose names, parameters
      and conditions are all strings, ints and tuples yields one grounded
      action per element of the product of its object lists, in product
      order (one action when it has no parameters). */
  lemma GroundSchemaAll(a: Action, objects: map<Term, seq<Term>>)
    requires !a.unique && !a.noPermute && Groundable(a)
    requires forall i :: 0 <= i < |a.types| ==> a.types[i] in objects
    ensures var lists := ParamLists(a.types, objects).value;
      && GroundSchema(a, objects).Ok?
      && |GroundSchema(a, objects).value| == |Product(lists)| == Combinations(lists)
      && forall i :: 0 <= i < |Product(lists)| ==>
           GroundSchema(a, objects).value[i] == GroundAction(a, Product(lists)[i]).value
  {
    var lists := ParamLists(a.types, objects).value;
    ScanKeepsAll(Product(lists));
    ProductSize(lists);
    GroundBindingsAt(a, Product(lists));
  }

  /** A schema without parameters yields exactly one grounded action,
      whatever its flags: `product()` gives one empty binding, which
      repeats no object and whose empty object set is not yet recorded. */
  lemma GroundSchemaNoParameters(a: Action, objects: map<Term, seq<Term>>)
    requires a.types == [] && Groundable(a)
    ensures GroundSchema(a, objects).Ok?
    ensures GroundSchema(a, objects).value == [GroundAction(a, []).value]
  {
    assert ParamLists(a.types, objects) == Ok([]);
    assert Product([]) == [[]];
    var candidates: seq<seq<Term>> := [[]];
    assert candidates[..0] == [];
    assert Elems([]) == {};
    assert Scan(a.unique, a.noPermute, candidates).accepted == [[]];
    GroundBindingsAt(a, [[]]);
  }

  /** A parameter type with no object list aborts the grounding of the
      whole domain with a KeyError for the first such type of the first
      schema that has one. */
  lemma GroundSchemaMissing(a: Action, objects: map<Term, seq<Term>>, k: nat)
    requires k < |a.types| && a.types[k] !in objects
    requires forall i :: 0 <= i < k ==> a.types[i] in objects
    ensures GroundSchema(a, objects) == Err(MissingType(a.types[k]))
  {
    MissingFirst(a.types, objects, k);
  }

  lemma {:induction false} MissingFirst(types: seq<Term>, objects: map<Term, seq<Term>>, k: nat)
    requires k < |types| && types[k] !in objects
    requires forall i :: 0 <= i < k ==> types[i] in objects
    ensures ParamLists(types, objects) == Err(MissingType(types[k]))
  {
    if k > 0 {
      MissingFirst(types[1..], objects, k - 1);
    }
  }
}
