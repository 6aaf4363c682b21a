/**
 * The one list idiom the scripts repeat: extend a list with the items of another that it
 * does not hold yet (`for x in xs: if x not in acc: acc.append(x)`).
 */
module Seqs {

  predicate NoDup<T(==)>(s: seq<T>) {
    forall i, j :: 0 <= i < j < |s| ==> s[i] != s[j]
  }

  /** `acc` extended, in order, by each item of `xs` not already in it. */
  function AppendNew<T(==)>(acc: seq<T>, xs: seq<T>): seq<T>
    decreases |xs|
  {
    if xs == [] then acc
    else AppendNew(if xs[0] in acc then acc else acc + [xs[0]], xs[1..])
  }

  /** The list it starts from is kept, unchanged and in order, at the front. */
  lemma {:induction false} AppendNewPrefix<T>(acc: seq<T>, xs: seq<T>)
    ensures |acc| <= |AppendNew(acc, xs)| && AppendNew(acc, xs)[..|acc|] == acc
    decreases |xs|
  {
    if xs != [] {
      var acc' := if xs[0] in acc then acc else acc + [xs[0]];
      AppendNewPrefix(acc', xs[1..]);
      assert AppendNew(acc, xs)[..|acc'|][..|acc|] == acc;
    }
  }

  /** The result holds exactly the items of both lists. */
  lemma {:induction false} AppendNewMembers<T>(acc: seq<T>, xs: seq<T>)
    ensures forall x :: x in AppendNew(acc, xs) <==> x in acc || x in xs
    decreases |xs|
  {
    if xs != [] {
      var acc' := if xs[0] in acc then acc else acc + [xs[0]];
      AppendNewMembers(acc', xs[1..]);
      assert forall x :: x in xs <==> x == xs[0] || x in xs[1..];
    }
  }

  /** A list without repeats stays without repeats. */
  lemma {:induction false} AppendNewNoDup<T>(acc: seq<T>, xs: seq<T>)
    requires NoDup(acc)
    ensures NoDup(AppendNew(acc, xs))
    decreases |xs|
  {
    if xs != [] {
      var acc' := if xs[0] in acc then acc else acc + [xs[0]];
      assert NoDup(acc') by {
        if xs[0] !in acc {
          forall i, j | 0 <= i < j < |acc'| ensures acc'[i] != acc'[j] {
            if j == |acc| { assert acc'[i] == acc[i]; }
          }
        }
      }
      AppendNewNoDup(acc', xs[1..]);
    }
  }

  /** Nothing is appended exactly when every item is already there. */
  lemma {:induction false} AppendNewUnchanged<T>(acc: seq<T>, xs: seq<T>)
    ensures AppendNew(acc, xs) == acc <==> forall x :: x in xs ==> x in acc
    decreases |xs|
  {
    AppendNewMembers(acc, xs);
    if xs != [] {
      if xs[0] in acc {
        AppendNewUnchanged(acc, xs[1..]);
        assert forall x :: x in xs <==> x == xs[0] || x in xs[1..];
      } else {
        AppendNewPrefix(acc + [xs[0]], xs[1..]);
        assert |AppendNew(acc, xs)| > |acc|;
      }
    }
  }

  /** The result is no longer than the two lists together. */
  lemma {:induction false} AppendNewLength<T>(acc: seq<T>, xs: seq<T>)
    ensures |AppendNew(acc, xs)| <= |acc| + |xs|
    decreases |xs|
  {
    if xs != [] {
      var acc' := if xs[0] in acc then acc else acc + [xs[0]];
      AppendNewLength(acc', xs[1..]);
    }
  }
}
