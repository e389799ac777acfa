/** Sequence operations shared by several components. */
module Sequences {
  /** The position of the first element satisfying `p`, or the length. */
  function FirstIndex<T>(q: seq<T>, p: T -> bool): (i: nat)
    ensures i <= |q|
    ensures i < |q| ==> p(q[i])
    ensures forall k :: 0 <= k < i ==> !p(q[k])
  {
    if |q| == 0 || p(q[0]) then 0 else 1 + FirstIndex(q[1..], p)
  }

  /** The position of the first `x`, or the length. */
  function IndexOf<T(==)>(q: seq<T>, x: T): (at: nat)
    ensures at <= |q|
  {
    if |q| == 0 || q[0] == x then 0 else 1 + IndexOf(q[1..], x)
  }

  /** `q` without what is at `i`, if anything is. */
  function Without<T>(q: seq<T>, i: nat): seq<T> {
    if i < |q| then q[..i] + q[i + 1..] else q
  }

  lemma {:induction false} IndexOfSplit<T>(a: seq<T>, x: T, b: seq<T>)
    requires x !in a
    ensures IndexOf(a + ([x] + b), x) == |a|
  {
    if |a| > 0 {
      assert (a + ([x] + b))[1..] == a[1..] + ([x] + b);
      IndexOfSplit(a[1..], x, b);
    } else {
      assert a + ([x] + b) == [x] + b;
    }
  }

  lemma {:induction false} IndexOfNone<T>(q: seq<T>, x: T)
    requires x !in q
    ensures IndexOf(q, x) == |q|
  {
    if |q| > 0 {
      IndexOfNone(q[1..], x);
    }
  }

  lemma Regroup<T>(a: seq<T>, b: seq<T>, c: seq<T>)
    ensures a + (b + c) == (a + b) + c
  {
  }

  function Flatten<T>(parts: seq<seq<T>>): seq<T> {
    if parts == [] then [] else parts[0] + Flatten(parts[1..])
  }

  lemma {:induction false} FlattenAppend<T>(parts: seq<seq<T>>, last: seq<T>)
    ensures Flatten(parts + [last]) == Flatten(parts) + last
  {
    if parts == [] {
      assert parts + [last] == [last] && [last][1..] == [];
      assert last + [] == last && [] + last == last;
    } else {
      assert (parts + [last])[1..] == parts[1..] + [last];
      FlattenAppend(parts[1..], last);
      Regroup(parts[0], Flatten(parts[1..]), last);
    }
  }
}
