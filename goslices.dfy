/**
 * Go slices as the provider builds them: element-wise conversion, and `append` on a slice
 * that starts out nil. The Terraform plugin framework turns a nil slice into a null list,
 * so whether a slice is nil or merely empty is visible to the user.
 */
module GoSlices {
  import opened Wrappers

  /** `f` applied to each element, in order. */
  function Map<A, B>(f: A -> B, xs: seq<A>): (ys: seq<B>)
    ensures |ys| == |xs|
    ensures forall i :: 0 <= i < |xs| ==> ys[i] == f(xs[i])
  {
    seq(|xs|, i requires 0 <= i < |xs| => f(xs[i]))
  }

  /** Mapping one more element extends the mapped prefix by that element's image. */
  lemma MapSnoc<A, B>(f: A -> B, xs: seq<A>, i: nat)
    requires i < |xs|
    ensures Map(f, xs[..i + 1]) == Map(f, xs[..i]) + [f(xs[i])]
  {
  }

  /** Go's `append(s, x)` where `s` may be nil: the result is never nil. */
  function Append<T>(s: Option<seq<T>>, x: T): (r: Option<seq<T>>)
    ensures r.Some? && r.value == s.GetOr([]) + [x]
  {
    Some(s.GetOr([]) + [x])
  }

  /** The slice left by appending each element of `xs`, in order, to a nil slice. */
  function FromNil<T>(xs: seq<T>): (s: Option<seq<T>>)
    ensures s.None? <==> xs == []
    ensures s.Some? ==> s.value == xs
  {
    if xs == [] then None else Some(xs)
  }

  /** One more `append` onto a slice that started nil. */
  lemma FromNilSnoc<T>(xs: seq<T>, x: T)
    ensures FromNil(xs + [x]) == Append(FromNil(xs), x)
  {
  }

  /** The slice left by appending each element of `xs`, in order, to `s`. */
  function AppendAll<T>(s: Option<seq<T>>, xs: seq<T>): (r: Option<seq<T>>)
    ensures xs == [] ==> r == s
    ensures xs != [] ==> r == Some(s.GetOr([]) + xs)
  {
    if xs == [] then s else Some(s.GetOr([]) + xs)
  }

  /** One more `append` after appending `xs`. */
  lemma AppendAllSnoc<T>(s: Option<seq<T>>, xs: seq<T>, x: T)
    ensures AppendAll(s, xs + [x]) == Append(AppendAll(s, xs), x)
  {
    if xs == [] {
      assert xs + [x] == [x];
    } else {
      assert s.GetOr([]) + (xs + [x]) == (s.GetOr([]) + xs) + [x];
    }
  }
}
