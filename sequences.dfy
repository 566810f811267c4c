/** Facts about sequences without repeated elements. */
module Seqs {

  /** No element occurs twice in `s`: the specification of "appears at most once". */
  ghost predicate Distinct<T>(s: seq<T>)
  {
    forall i, j :: 0 <= i < j < |s| ==> s[i] != s[j]
  }

  /** Mapping a sequence through `f` cannot remove a repeat: if the images are
      distinct, so are the elements. */
  lemma DistinctImageImpliesDistinct<T, U>(s: seq<T>, image: seq<U>, f: T -> U)
    requires |image| == |s|
    requires forall i :: 0 <= i < |s| ==> image[i] == f(s[i])
    requires Distinct(image)
    ensures Distinct(s)
  {
    forall i, j | 0 <= i < j < |s| ensures s[i] != s[j] {
      assert image[i] != image[j];
    }
  }
}
