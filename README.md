# pyddl planning kernel, modelled in Dafny

This project models the core of `pyddl/pyddl.py`, a small STRIPS-style
planning kernel with numeric fluents:

- **Action grounding.** An `Action` schema is validated by its constructor
  (`Action.__init__`), then grounded against typed object lists by
  `Domain.ground`: the Cartesian product of the object lists, in
  `itertools.product` order, is filtered by the `unique` flag (no repeated
  object) and the `no_permute` flag (one binding per object set, the first
  one met), and each accepted binding is substituted into the schema by
  `_grounder`/`_GroundedAction`. `neg(atom)` tags a delete effect as the
  tuple `(-1, atom)`.
- **World states.** A `State` holds a set of facts, a cost and a
  predecessor link. Numeric function values are facts of the form
  `('=', name, value)`. `is_true` checks preconditions: plain facts by
  membership, comparisons through the operator table `NUM_OPS`. `apply`
  builds the successor: adds, deletes (skipped when `monotone`), then the
  `+=`/`-=` updates.
- **Plans.** `State.plan` follows the predecessor links back and reverses
  the collected actions.

Files, one module each:

| file | module | covers |
|---|---|---|
| `terms.dfy` | `Terms` | the Python values involved (strings, ints, tuples, any other leaf), `t[0]`, `frozenset` |
| `actions.dfy` | `Actions` | `neg`, `Action.__init__`, `_grounder`, `_GroundedAction` / `Action.ground` |
| `domain.dfy` | `Domains` | `Domain.ground`: the product, the `unique`/`no_permute` filter, the loops |
| `state.dfy` | `States` | `NUM_OPS`, `State.is_true`, `State.apply`, `State.__eq__` |
| `plan.dfy` | `Plans` | `Problem.initial_state`, `State.plan` |
| `examples.dfy` | `Scenarios` | the cases asserted by `pyddl/test_pyddl.py` and a few worked states |

Form of the model. Schemas, grounded actions and states are never updated
after construction in the source, so they are datatypes; a state's
predecessor is the recursive `Link = Root | From(parent, action)`. The
loops of the source are methods proved against specification functions:
`Domains.GroundDomain` and `Domains.GroundCandidates` (the two loops of
`Domain.ground`, with the `param_combos` set), `Actions.BuildNameMap` (the
`zip` loop of `_grounder`), `States.Apply` (the set updates and the
`new_functions[function] += value` loop) and `Plans.PlanOf` (the `while`
loop over predecessors). The rest is functions and lemmas.

Behaviour of the code worth stating up front:

- `'='` in `NUM_OPS` is `operator.eq`, value equality; only `'=='` and
  `'!='` use `is`/`is not`. `States.Evaluate` compares values for `'='`.
- A negated precondition `(-1, atom)` is tested by membership of that very
  tuple in the facts, not by the absence of `atom`
  (`States.NegatedPrecondition`, `Scenarios.NegatedPreconditionOnEmptyState`).
- `State.__eq__` compares the whole fact set, and the numeric bindings are
  facts, so numeric values do take part in state equality (`States.Same`).
- Numeric updates go only to functions already bound: `+=`/`-=` on an
  unbound function raises a `KeyError` (`States.SuccessorFails`).

The definitions the lemmas below are about:

- `Actions.Neg` (pyddl/pyddl.py:148-152): `neg(atom)` is `(-1, atom)`.
- `Domains.Scan` (pyddl/pyddl.py:38-46): the `unique`/`no_permute` filter
  with its `param_combos` set, one candidate at a time.
- `Domains.GroundAll` (pyddl/pyddl.py:30-47): `Domain.ground` as a value.
- `States.NumOp` and `States.Evaluate` (pyddl/pyddl.py:11-19): the keys of
  `NUM_OPS` and the operator each one applies.
- `States.IsTrue` (pyddl/pyddl.py:76-93): `State.is_true` as a value.
- `States.Successor` (pyddl/pyddl.py:95-118): `State.apply` as a value.
- `States.Same` (pyddl/pyddl.py:139-140): `State.__eq__`.
- `Plans.Plan` (pyddl/pyddl.py:120-131): the actions from the start state,
  in order of application.

## Model

| member | source | states |
|---|---|---|
| Terms.Head | pyddl/pyddl.py:77 | `t[0]` exists exactly for a non-empty tuple or string; on a tuple it is the first element |
| Terms.ElemsCardinality | pyddl/pyddl.py:40-41 | `len(frozenset(params)) <= len(params)`, with equality exactly when no object repeats |
| Actions.NewAction | pyddl/pyddl.py:158-191 | the constructor succeeds iff each non-empty argument list starts with a tuple and the parameters unzip into pairs; "Invalid parameters" / "Invalid preconditions" are raised in that order; only the first element is checked; the fields are copied and `types`/`arg_names` are the two columns of the parameters (empty for no parameters) |
| Actions.BuildNameMap | pyddl/pyddl.py:208-210 | the `zip` loop builds exactly the reference name map |
| Actions.NameMapLookup | pyddl/pyddl.py:208-210 | each name within the shorter list maps to the argument of its last occurrence |
| Actions.NameMapKeys | pyddl/pyddl.py:208-210 | the keys are exactly the names paired with an argument by `zip` |
| Actions.Subst | pyddl/pyddl.py:211-217 | grounding succeeds iff no leaf of another type occurs at any depth, so it raises exactly when one does; a tuple grounds to a tuple of the same length |
| Actions.SubstReplacesLeaves | pyddl/pyddl.py:211-217 | with string/int parameter names, grounding replaces every bound leaf at every depth and nothing else (against the reference `MapLeaves`) |
| Actions.SubstKeepsUnboundTerms | pyddl/pyddl.py:213-215 | a term mentioning no parameter name grounds to itself (relation names, `-1`, `'<='` pass through) |
| Actions.SubstAll | pyddl/pyddl.py:232-233 | the comprehension grounds one term per input term |
| Actions.GroundAction | pyddl/pyddl.py:224-233 | `_GroundedAction` succeeds iff name, parameter names, preconditions and effects contain no unsupported leaf; it keeps the name, the counts, and builds a signature of `1 + len(arg_names)` elements |
| Actions.GroundedSignature | pyddl/pyddl.py:229 | with distinct parameter names different from the action name and one argument each, `sig == (name,) + args` |
| Actions.GroundedConditions | pyddl/pyddl.py:232-233 | grounded preconditions and effects are the pointwise substitutions, in the same order |
| Domains.ParamLists | pyddl/pyddl.py:37 | the object lists are found iff every type is a key; in type order; a failure names a missing type |
| Domains.GroundSchemaNoParameters | pyddl/pyddl.py:37-46 | a schema without parameters yields exactly one grounded action, whatever its `unique`/`no_permute` flags |
| Domains.GroundSchemaMissing | pyddl/pyddl.py:37 | the first missing type aborts grounding with a lookup error for that type |
| Domains.MissingFirst | pyddl/pyddl.py:37 | the list comprehension fails at the first type absent from the objects |
| Domains.Prepend | pyddl/pyddl.py:39 | one step of `product` yields `|xs| * |ps|` bindings |
| Domains.ProductSize | pyddl/pyddl.py:39 | `product` yields the product of the list lengths (one binding for no lists) |
| Domains.PrependAt | pyddl/pyddl.py:39 | position `i * |ps| + j` of one product step holds `xs[i]` followed by `ps[j]` |
| Domains.ProductOrder | pyddl/pyddl.py:39 | the leftmost list varies slowest |
| Domains.PrependMembers | pyddl/pyddl.py:39 | a binding comes from a product step iff its head is in `xs` and its tail in `ps` |
| Domains.ProductMembers | pyddl/pyddl.py:39 | a binding is produced iff it picks one object from each list, in order |
| Domains.ScanRecords | pyddl/pyddl.py:38-45 | `param_combos` holds exactly the object sets of the accepted bindings, so bindings rejected by `unique` are never recorded |
| Domains.ScanUnique | pyddl/pyddl.py:41-42 | under `unique`, no accepted binding repeats an object |
| Domains.ScanNoPermute | pyddl/pyddl.py:43-44 | under `no_permute`, no two accepted bindings have the same object set |
| Domains.ScanKeepsAll | pyddl/pyddl.py:38-46 | without flags, every candidate is accepted, in order |
| Domains.ScanPrefix | pyddl/pyddl.py:38-46 | after any prefix, the loop state equals the reference rule's accepted list and admissible sets |
| Domains.ScanMatchesReference | pyddl/pyddl.py:38-46 | the filter accepts exactly the candidates that pass `unique` and, under `no_permute`, whose object set no earlier admissible candidate has: the first in product order wins |
| Domains.ScanGrows | pyddl/pyddl.py:38-46 | the accepted list only grows along the candidates |
| Domains.GroundBindingsAt | pyddl/pyddl.py:46 | for a groundable schema, one grounded action per accepted binding, in order |
| Domains.GroundBindingsFails | pyddl/pyddl.py:46 | for a schema that cannot be grounded, the first accepted binding raises |
| Domains.GroundErrorPersists | pyddl/pyddl.py:46 | once a binding fails to ground, the whole schema fails |
| Domains.GroundSchemaAll | pyddl/pyddl.py:36-46 | without flags, a schema yields exactly `∏ len(objects[t])` actions in product order (one for no parameters) |
| Domains.GroundCandidates | pyddl/pyddl.py:38-46 | the inner loop, with its `param_combos` set, equals grounding the filtered bindings |
| Domains.GroundDomain | pyddl/pyddl.py:30-47 | the outer loop equals the schemas grounded in declaration order and concatenated; the first error aborts |
| Domains.GroundAllStops | pyddl/pyddl.py:36-37 | once a schema fails, the whole domain fails with that error |
| States.BindingsMembership | pyddl/pyddl.py:77-79 | `('=', f, v)` is a fact iff `f` is bound to `v` in the function dictionary |
| States.Recombine | pyddl/pyddl.py:100-116 | boolean facts plus the facts built from a dictionary are well formed, give back that dictionary and those boolean facts |
| States.NumFactShape | pyddl/pyddl.py:116 | each rebuilt binding fact is `('=', f, new_functions[f])` |
| States.SameBindings | pyddl/pyddl.py:139-140 | equal states have equal bindings and boolean facts |
| States.AtomTests | pyddl/pyddl.py:90 | keeps exactly the preconditions whose head is not a `NUM_OPS` key |
| States.ComparisonTests | pyddl/pyddl.py:91 | keeps exactly the preconditions whose head is a `NUM_OPS` key |
| States.IsTrueMeaning | pyddl/pyddl.py:76-93 | `is_true` holds iff every comparison holds on the resolved operands and every other precondition is literally a fact |
| States.IsTrueEmpty | pyddl/pyddl.py:93 | the empty precondition list holds in every state |
| States.IsTrueSplit | pyddl/pyddl.py:90-93 | a concatenation of preconditions holds iff both parts hold |
| States.NegatedPrecondition | pyddl/pyddl.py:90-93 | `neg(atom)` as a precondition holds iff the tuple `(-1, atom)` is a fact |
| States.BindingPrecondition | pyddl/pyddl.py:81-88 | a precondition `('=', f, v)` compares values: it holds iff that binding is in the state |
| States.IdentityNegation | pyddl/pyddl.py:17-18 | `'!='` is the negation of `'=='` on the same operands |
| States.IsTrueMonotone | pyddl/pyddl.py:76-93 | more boolean facts with the same bindings never falsify a precondition list |
| States.IsTrueRespectsSame | pyddl/pyddl.py:139-140 | equal states agree on every precondition list |
| States.Adds | pyddl/pyddl.py:104 | the add effects are exactly the effects whose head is not `-1`, `'+='` or `'-='` |
| States.EffectsPartition | pyddl/pyddl.py:104-109 | adds, deletes and numeric effects together have as many entries as the effects, so the assertion never fires |
| States.NegIsDelete | pyddl/pyddl.py:148-152 | `neg(atom)` is a delete of `atom` and nothing else |
| States.DeltaConcat | pyddl/pyddl.py:114-115 | the net change of a list of updates is additive over concatenation |
| States.BumpStep | pyddl/pyddl.py:114-115 | one more loop iteration is one more dictionary update, or the `KeyError` |
| States.BumpAdds | pyddl/pyddl.py:114-115 | the update loop keeps the bound functions and adds up the deltas |
| States.BumpFails | pyddl/pyddl.py:114-115 | the update loop raises iff an update names an unbound function |
| States.BumpStops | pyddl/pyddl.py:114-115 | after a `KeyError` the rest of the updates do not matter |
| States.Apply | pyddl/pyddl.py:95-118 | the in-place updates compute exactly the successor function |
| States.SuccessorFacts | pyddl/pyddl.py:100-116 | the new boolean facts are (old ∪ adds) \ deletes, or old ∪ adds when monotone; the successor is well formed |
| States.MonotoneKeepsFacts | pyddl/pyddl.py:111-113 | a monotone successor keeps every old boolean fact |
| States.SuccessorNumbers | pyddl/pyddl.py:102-116 | the successor binds the same functions, once each, to old value + Σ `+=` deltas − Σ `-=` deltas |
| States.IncrementsDelta | pyddl/pyddl.py:106 | the `+=` part of the numeric effects sums to the `+=` deltas of a function |
| States.DecrementsDelta | pyddl/pyddl.py:107 | the `-=` part sums to minus the `-=` deltas of a function |
| States.NumEffectsFrom | pyddl/pyddl.py:106-107 | every numeric update comes from a `+=` or `-=` effect on the same function |
| States.NumEffectsOf | pyddl/pyddl.py:106-107 | every `+=` or `-=` effect contributes an update on its function |
| States.SuccessorFails | pyddl/pyddl.py:114-115 | `apply` raises iff a `+=`/`-=` effect names a function the state does not bind |
| States.SuccessorRespectsSame | pyddl/pyddl.py:95-118 | equal states have equal successors, and one raises iff the other does |
| Plans.Reversed | pyddl/pyddl.py:130 | reversing keeps the length and mirrors the positions |
| Plans.Origin | pyddl/pyddl.py:127-129 | following the links ends at a state without a predecessor |
| Plans.PlanOf | pyddl/pyddl.py:120-131 | the backward walk plus the reversal returns the actions from the start state in order of application |
| Plans.InitialPlan | pyddl/pyddl.py:65-74 | the initial state holds exactly the initial facts, has cost 0 and the empty plan |
| Plans.PlanAfterApply | pyddl/pyddl.py:118 | applying an action adds one to the cost, links back to `(self, action)` and appends the action to the plan |
| Plans.PlanLength | pyddl/pyddl.py:118-131 | along a chain of `apply` calls from a cost-0 state, each call with its own `monotone` flag, the plan length equals the cost |
| Plans.ReachedIsDerived | pyddl/pyddl.py:118 | a chain built with a single `monotone` flag is such a chain |
| Plans.PlanReplays | pyddl/pyddl.py:120-131 | applying the plan's actions in order to the start state reproduces the state |
| Plans.SameIgnoresPlan | pyddl/pyddl.py:139-140 | state equality ignores cost and predecessor: equal states can have different plans |
| Scenarios.PreconditionsMustBeTuples | pyddl/test_pyddl.py:6-22 | a bare tuple of strings as preconditions is refused with "Invalid preconditions", also when the effects are invalid too |
| Scenarios.RemoveIsBuilt | pyddl/test_pyddl.py:24-40 | the `Remove` schema of the tests splits its parameters into types `tire, location` and names `t, l` |
| Scenarios.RemoveLeaves | pyddl/test_pyddl.py:24-42 | the name map of `Remove` grounded with `('flat', 'ground')` and its effect on each term the tests use |
| Scenarios.GroundingPreconditions | pyddl/test_pyddl.py:24-103 | the grounded preconditions are exactly the lists the four precondition tests expect, nested tuples, `'<='` comparisons and negations included |
| Scenarios.GroundingEffects | pyddl/test_pyddl.py:122-198 | the grounded effects are exactly the lists the four effect tests expect |
| Scenarios.ComparingFuel | pyddl/pyddl.py:81-93 | with `fuel` bound to 2, `('<', 'fuel', 3)` holds and `('<', 'fuel', 1)` does not; `('=', 'fuel', 2)` holds and `('=', 'fuel', 3)` does not |
| Scenarios.NegatedPreconditionOnEmptyState | pyddl/pyddl.py:90-93 | on the empty state, `neg(atom)` fails although `atom` is absent |
| Scenarios.FuelState | pyddl/pyddl.py:77-79 | the state with the single fact `('=', 'fuel', v)` binds `fuel` to `v` and has no boolean fact |
| Scenarios.IncrementEffects | pyddl/pyddl.py:104-107 | the single effect `('+=', 'fuel', 1)` is one numeric update and no add or delete |
| Scenarios.BumpOne | pyddl/pyddl.py:114-115 | a single update adds the delta to a bound function and raises otherwise |
| Scenarios.Refuel | pyddl/pyddl.py:114-118 | `('+=', 'fuel', 1)` turns `('=', 'fuel', 1)` into `('=', 'fuel', 2)`, with a one-action plan |
| Scenarios.RefuelUnbound | pyddl/pyddl.py:114-115 | the same effect on a state that does not bind `fuel` raises |

## Left out

- Search: no search driver or heuristic is defined in `pyddl/pyddl.py`; the `planner` imported by the example scripts is not part of this model.
- The example scripts `test_spare_tire.py` and `test_butler_story.py` (printing, command-line options, a stub planner) are not modelled.
- `Problem.__init__` only stores its arguments and calls `Domain.ground`; it is not modelled separately (`Domains.GroundDomain` and `States.InitialState` cover what it does).
- `Domain.__init__` only turns its argument into a tuple; `Domains.Domain` is that tuple.
- `__hash__`, `__lt__` (Python's builtin hash), `__str__` and `__repr__` (formatting) are not modelled.
- `States.Evaluate`: `'=='` and `'!='` compare object identity, which is not a property of values; the model takes identity as a parameter `ident` and proves only that `'!='` is its negation.
- `States.Evaluate`: ordering `'>'`, `'<'`, `'>='`, `'<='` between an unresolved name and an int raises `TypeError` in Python; the model requires both operands of an ordering to resolve to ints (`States.ComparisonOk`), and does not model orderings between two strings.
- `States.FactsOk`: a binding whose value is not an int, such as `('=', 'color', 'red')`, is excluded, although Python stores it and `'='` compares it without raising; the model keeps function values as ints.
- Floats and other non-int numbers are not modelled: an operand is an int literal or a name; other leaves exist only as `Other`, to model where grounding raises.
- `States.Bindings`: a state with two `'='` facts for the same function is resolved by set iteration order in the source; the model requires at most one binding per function (`States.FactsOk`), and proves that `apply` keeps it that way when no add effect is itself a binding (`States.NoBindingAdds`).
- Other Python crashes (`IndexError` on an empty fact or effect, unpacking errors on a malformed binding, a missing third element of a `'+='` effect) are excluded by preconditions (`States.FactsOk`, `States.EffectOk`, `States.ComparisonOk`) rather than modelled as errors.
- `Actions.NewAction`: `zip(*parameters)` on parameters of unequal lengths is modelled through the shortest one; parameters given as strings are unzipped character by character; Python's `len` of a non-sequence argument (a TypeError) is not modelled, the arguments being sequences.
- `Plans.PlanOf`: `plan.reverse()` reverses the list in place; the model reverses the collected sequence with the function `Plans.Reversed`.
- Python's `bool` being an `int` (so `True` would match `1` as a name-map key or a delete head) is not modelled.
