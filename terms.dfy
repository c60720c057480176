/**
 * The values the planner manipulates. Facts, preconditions, effects,
 * parameter names and objects are all plain Python values: strings, ints
 * and (nested) tuples. Any other kind of leaf (a float, None, ...) is kept
 * as an opaque `Other` so that the places where the source rejects it can
 * be modelled.
 */
module Terms {

  datatype Option<T> = None | Some(value: T)

  datatype Result<T, E> = Ok(value: T) | Err(error: E)

  datatype Term =
    | Sym(name: string)       // a Python str
    | Num(n: int)             // a Python int
    | Tup(elems: seq<Term>)   // a Python tuple
    | Other(kind: string)     // a leaf of any other type, named by its type

  predicate IsLeaf(t: Term) {
    t.Sym? || t.Num?
  }

  /** Python's `t[0]`: the first element of a tuple or the first character
      of a string; None where Python raises (empty value, int, other leaf). */
  function Head(t: Term): (h: Option<Term>)
    ensures h.Some? <==> (t.Tup? && |t.elems| > 0) || (t.Sym? && |t.name| > 0)
    ensures t.Tup? && h.Some? ==> h.value == t.elems[0]
  {
    match t
    case Tup(es) => if |es| > 0 then Some(es[0]) else None
    case Sym(s) => if |s| > 0 then Some(Sym([s[0]])) else None
    case _ => None
  }

  /** Whether a leaf of an unsupported type occurs anywhere in `t`. */
  predicate HasOther(t: Term) {
    match t
    case Other(_) => true
    case Tup(es) => exists i :: 0 <= i < |es| && HasOther(es[i])
    case _ => false
  }

  /** `frozenset(s)`: the objects of a binding, forgetting order and repeats. */
  function Elems(s: seq<Term>): set<Term> {
    set x | x in s
  }

  predicate Distinct(s: seq<Term>) {
    forall i, j :: 0 <= i < j < |s| ==> s[i] != s[j]
  }

  /** The test `len(frozenset(params)) != len(params)` detects exactly the
      bindings that repeat an object. */
  lemma {:induction false} ElemsCardinality(s: seq<Term>)
    ensures |Elems(s)| <= |s|
    ensures |Elems(s)| == |s| <==> Distinct(s)
  {
    if s == [] {
      assert Elems(s) == {};
    } else {
      var n := |s| - 1;
      var init := s[..n];
      ElemsCardinality(init);
      assert s == init + [s[n]];
      assert Elems(s) == Elems(init) + {s[n]};
      if s[n] in Elems(init) {
        assert Elems(s) == Elems(init);
        var k :| 0 <= k < n && init[k] == s[n];
        assert s[k] == s[n];
        assert !Distinct(s);
      } else {
        assert |Elems(s)| == |Elems(init)| + 1;
        if Distinct(init) {
          forall i, j | 0 <= i < j < |s| ensures s[i] != s[j] {
            if j == n {
              assert s[i] == init[i];
            } else {
              assert s[i] == init[i] && s[j] == init[j];
            }
          }
        } else {
          var i, j :| 0 <= i < j < |init| && init[i] == init[j];
          assert s[i] == s[j];
        }
      }
    }
  }
}
