/** Order-preserving selection over sequences.

    The engine culls entities with Python list comprehensions
    (`[o for o in xs if keep(o)]`) and removes collected entities from a
    list; both are selections that keep the survivors in their original
    order. `Filter` keeps the elements satisfying a predicate and `Reject`
    keeps the others.
 */
module Seqs {

  /** The elements of `s` that satisfy `p`, in their original order. */
  function Filter<T>(s: seq<T>, p: T -> bool): (r: seq<T>)
    ensures |r| <= |s|
    ensures forall i :: 0 <= i < |r| ==> p(r[i])
    ensures forall i :: 0 <= i < |r| ==> r[i] in s
    ensures forall i :: 0 <= i < |s| ==> (s[i] in r <==> p(s[i]))
    decreases |s|
  {
    if s == [] then []
    else (if p(s[0]) then [s[0]] else []) + Filter(s[1..], p)
  }

  /** The elements of `s` that do not satisfy `p`, in their original order. */
  function Reject<T>(s: seq<T>, p: T -> bool): (r: seq<T>)
    ensures |r| <= |s|
    ensures forall i :: 0 <= i < |r| ==> !p(r[i])
    ensures forall i :: 0 <= i < |r| ==> r[i] in s
    ensures forall i :: 0 <= i < |s| ==> (s[i] in r <==> !p(s[i]))
    decreases |s|
  {
    if s == [] then []
    else (if p(s[0]) then [] else [s[0]]) + Reject(s[1..], p)
  }

  /** Selection distributes over concatenation: together with the one-element
      case this pins `Filter` down as the order-preserving selection. */
  lemma {:induction false} FilterAppend<T>(a: seq<T>, b: seq<T>, p: T -> bool)
    ensures Filter(a + b, p) == Filter(a, p) + Filter(b, p)
    decreases |a|
  {
    if a == [] {
      assert a + b == b;
    } else {
      assert (a + b)[0] == a[0];
      assert (a + b)[1..] == a[1..] + b;
      FilterAppend(a[1..], b, p);
    }
  }

  /** Every element is either selected or rejected, never both. */
  lemma {:induction false} FilterRejectPartition<T>(s: seq<T>, p: T -> bool)
    ensures |Filter(s, p)| + |Reject(s, p)| == |s|
    ensures multiset(Filter(s, p)) + multiset(Reject(s, p)) == multiset(s)
    decreases |s|
  {
    if s != [] {
      FilterRejectPartition(s[1..], p);
      assert s == [s[0]] + s[1..];
    }
  }
}
