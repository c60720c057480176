/**
 * `State.plan`: following the predecessor links back to the start state and
 * listing the actions taken, first action first.
 */
module Plans {
  import opened Terms
  import opened Actions
  import opened States

  /** `list.reverse()`, as a value. */
  function Reversed<T>(s: seq<T>): (r: seq<T>)
    ensures |r| == |s|
    ensures forall i :: 0 <= i < |s| ==> r[i] == s[|s| - 1 - i]
  {
    if s == [] then [] else [s[|s| - 1]] + Reversed(s[..|s| - 1])
  }

  /** The actions on the path from the start state to `s`, in the order
      they were applied. */
  function Plan(s: State): seq<GroundedAction>
    decreases s
  {
    match s.predecessor
    case Root => []
    case From(p, a) => Plan(p) + [a]
  }

  /** The state the predecessor links end at. */
  function Origin(s: State): (o: State)
    ensures o.predecessor.Root?
    decreases s
  {
    match s.predecessor
    case Root => s
    case From(p, _) => Origin(p)
  }

  /** `State.plan`: the loop collects the actions from the last one back,
      then reverses the list. */
  method PlanOf(s: State) returns (plan: seq<GroundedAction>)
    ensures plan == Plan(s)
  {
    var collected: seq<GroundedAction> := [];
    var n := s;
    while n.predecessor.From?
      invariant Plan(s) == Plan(n) + Reversed(collected)
      decreases n
    {
      var a := n.predecessor.action;
      assert (collected + [a])[..|collected|] == collected;
      collected := collected + [a];
      n := n.predecessor.parent;
    }
    plan := Reversed(collected);
  }

  /** Every link of the chain was made by `apply` (with the same
      `monotone` flag) from a well-formed state, and the chain starts from
      a state of cost 0, as `Problem.initial_state` builds it. */
  predicate Reached(s: State, monotone: bool)
    decreases s
  {
    match s.predecessor
    case Root => s.cost == 0
    case From(p, a) =>
      && Reached(p, monotone)
      && FactsOk(p.facts) && EffectsOk(a.effects)
      && Successor(p, a, monotone) == Ok(s)
  }

  /** Every link of the chain was made by `apply` from a well-formed
      state, each with its own `monotone` flag (a delete-relaxed expansion
      below ordinary ones, say), and the chain starts from a state of
      cost 0. */
  predicate Derived(s: State)
    decreases s
  {
    match s.predecessor
    case Root => s.cost == 0
    case From(p, a) =>
      && Derived(p)
      && FactsOk(p.facts) && EffectsOk(a.effects)
      && (Successor(p, a, true) == Ok(s) || Successor(p, a, false) == Ok(s))
  }

  /** A chain built with one flag throughout is a chain. */
  lemma {:induction false} ReachedIsDerived(s: State, monotone: bool)
    requires Reached(s, monotone)
    ensures Derived(s)
    decreases s
  {
    match s.predecessor
    case Root =>
    case From(p, a) =>
      ReachedIsDerived(p, monotone);
  }

  /** Applying the actions of a plan one after the other; None where a
      state or an effect is malformed or an `apply` raises. */
  function Replay(start: State, plan: seq<GroundedAction>, monotone: bool): Option<State>
    decreases |plan|
  {
    if plan == [] then Some(start)
    else match Replay(start, plan[..|plan| - 1], monotone)
      case None => None
      case Some(s) =>
        var a := plan[|plan| - 1];
        if FactsOk(s.facts) && EffectsOk(a.effects) && Successor(s, a, monotone).Ok?
        then Some(Successor(s, a, monotone).value)
        else None
  }

  /** The start state has the empty plan. */
  lemma InitialPlan(init: seq<Term>, monotone: bool)
    ensures Plan(InitialState(init)) == []
    ensures Reached(InitialState(init), monotone)
    ensures forall e :: e in InitialState(init).facts <==> e in init
  {
  }

  /** Applying an action extends the plan by that action and the cost by
      one. */
  lemma PlanAfterApply(s: State, a: GroundedAction, monotone: bool)
    requires FactsOk(s.facts) && EffectsOk(a.effects)
    requires Successor(s, a, monotone).Ok?
    ensures var t := Successor(s, a, monotone).value;
      && Plan(t) == Plan(s) + [a]
      && t.cost == s.cost + 1
      && t.predecessor == From(s, a)
      && Origin(t) == Origin(s)
      && (Reached(s, monotone) ==> Reached(t, monotone))
  {
  }

  /** Along a chain of `apply` calls, whatever flag each call was given,
      the cost counts the actions of the plan. */
  lemma {:induction false} PlanLength(s: State)
    requires Derived(s)
    ensures |Plan(s)| == s.cost
    decreases s
  {
    match s.predecessor
    case Root =>
    case From(p, a) =>
      PlanLength(p);
  }

  /** Replaying the plan from the start state reproduces the state: the
      plan is a solution whenever the state is a goal state. */
  lemma {:induction false} PlanReplays(s: State, monotone: bool)
    requires Reached(s, monotone)
    ensures Replay(Origin(s), Plan(s), monotone) == Some(s)
    decreases s
  {
    match s.predecessor
    case Root =>
    case From(p, a) =>
      PlanReplays(p, monotone);
      var plan := Plan(p) + [a];
      assert plan[..|plan| - 1] == Plan(p);
  }

  /** Equal states need not have equal plans: `==` looks at the facts
      only. */
  lemma SameIgnoresPlan(s: State, a: GroundedAction)
    ensures var t := State(s.facts, s.cost + 1, From(s, a));
      Same(s, t) && Plan(t) != Plan(s)
  {
    var t := State(s.facts, s.cost + 1, From(s, a));
    assert |Plan(t)| == |Plan(s)| + 1;
  }
}
