/**
 * Orderings for the listings the handlers ask the database to sort
 * (`orderBy`): a comparison `le` is a total preorder, and a sequence is
 * sorted by it when every earlier element is `le` every later one.
 */
module Ordering {

  ghost predicate Total<T(!new)>(le: (T, T) -> bool) {
    forall a, b :: le(a, b) || le(b, a)
  }

  ghost predicate Transitive<T(!new)>(le: (T, T) -> bool) {
    forall a, b, c :: le(a, b) && le(b, c) ==> le(a, c)
  }

  predicate Sorted<T>(s: seq<T>, le: (T, T) -> bool) {
    forall i, j :: 0 <= i < j < |s| ==> le(s[i], s[j])
  }

  /** `s` with `x` placed before the first element it does not come after. */
  function Insert<T(!new)>(x: T, s: seq<T>, le: (T, T) -> bool): (r: seq<T>)
    requires Total(le) && Transitive(le)
    requires Sorted(s, le)
    ensures Sorted(r, le)
    ensures multiset(r) == multiset(s) + multiset{x}
    ensures forall v :: v in r <==> v == x || v in s
  {
    if s == [] || le(x, s[0]) then
      [x] + s
    else
      var rest := Insert(x, s[1..], le);
      HeadBelowAll(s[0], x, s[1..], rest, le);
      assert s == [s[0]] + s[1..];
      [s[0]] + rest
  }

  /** An element below `x` and below every element of `tail` is below everything made of them. */
  lemma HeadBelowAll<T>(h: T, x: T, tail: seq<T>, rest: seq<T>, le: (T, T) -> bool)
    requires le(h, x)
    requires forall i :: 0 <= i < |tail| ==> le(h, tail[i])
    requires forall y :: y in rest <==> y == x || y in tail
    ensures forall y :: y in rest ==> le(h, y)
  {
  }
}
