/** Sequence queries shared by the stores: the position `find_one` returns and the documents a filter selects, in collection order. */
module Seqs {
  import opened Wrappers

  /** The position of the first element that matches, or None. */
  function IndexWhere<T>(xs: seq<T>, matches: T -> bool): (r: Option<nat>)
    ensures r.Some? ==> r.value < |xs| && matches(xs[r.value])
    ensures r.Some? ==> forall k :: 0 <= k < r.value ==> !matches(xs[k])
    ensures r.None? ==> forall k :: 0 <= k < |xs| ==> !matches(xs[k])
  {
    if xs == [] then None
    else if matches(xs[0]) then Some(0)
    else match IndexWhere(xs[1..], matches)
      case None => None
      case Some(i) => Some(i + 1)
  }

  /** The elements that match, in order. */
  function Filter<T>(xs: seq<T>, keep: T -> bool): (r: seq<T>)
    ensures |r| <= |xs|
    ensures forall i :: 0 <= i < |r| ==> keep(r[i])
  {
    if xs == [] then [] else (if keep(xs[0]) then [xs[0]] else []) + Filter(xs[1..], keep)
  }

  lemma {:induction false} FilterAppend<T>(a: seq<T>, b: seq<T>, keep: T -> bool)
    ensures Filter(a + b, keep) == Filter(a, keep) + Filter(b, keep)
  {
    if a == [] {
      assert a + b == b;
    } else {
      assert (a + b)[1..] == a[1..] + b;
      FilterAppend(a[1..], b, keep);
    }
  }

  /** An element is selected exactly when it is in the sequence and matches. */
  lemma {:induction false} FilterMembers<T>(xs: seq<T>, keep: T -> bool)
    ensures forall x :: x in Filter(xs, keep) <==> x in xs && keep(x)
  {
    if xs != [] {
      FilterMembers(xs[1..], keep);
      assert xs == [xs[0]] + xs[1..];
    }
  }

  /** Nothing is selected exactly when nothing matches. */
  lemma {:induction false} FilterEmpty<T>(xs: seq<T>, keep: T -> bool)
    ensures Filter(xs, keep) == [] <==> forall i :: 0 <= i < |xs| ==> !keep(xs[i])
  {
    if xs != [] {
      FilterEmpty(xs[1..], keep);
      assert forall i :: 1 <= i < |xs| ==> xs[i] == xs[1..][i - 1];
    }
  }

  /** Filtering twice keeps what both filters keep. */
  lemma {:induction false} FilterFilter<T>(xs: seq<T>, first: T -> bool, second: T -> bool, both: T -> bool)
    requires forall x :: both(x) == (first(x) && second(x))
    ensures Filter(Filter(xs, first), second) == Filter(xs, both)
  {
    if xs != [] {
      FilterFilter(xs[1..], first, second, both);
      var head := if first(xs[0]) then [xs[0]] else [];
      FilterAppend(head, Filter(xs[1..], first), second);
    }
  }
}
