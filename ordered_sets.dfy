/** JavaScript `Set`s iterate in first-insertion order, and the adapter turns
    them into arrays (`Array.from(set)`). An insertion-ordered set is modelled
    as a sequence without duplicates. */
module OrderedSets {

  predicate NoDuplicates<T(==,!new)>(s: seq<T>) {
    forall i, j :: 0 <= i < j < |s| ==> s[i] != s[j]
  }

  /** `set.add(x)`: a member already present keeps its place. */
  function Add<T(==,!new)>(s: seq<T>, x: T): (r: seq<T>)
    ensures NoDuplicates(s) ==> NoDuplicates(r)
    ensures forall y :: y in r <==> y in s || y == x
  {
    if x in s then s else s + [x]
  }

  /** Adding every element of `xs`, in order. */
  function AddAll<T(==,!new)>(s: seq<T>, xs: seq<T>): (r: seq<T>)
    ensures NoDuplicates(s) ==> NoDuplicates(r)
    ensures forall y :: y in r <==> y in s || y in xs
    decreases |xs|
  {
    if |xs| == 0 then s
    else
      var s' := Add(s, xs[0]);
      var r := AddAll(s', xs[1..]);
      assert forall y :: y in xs <==> y == xs[0] || y in xs[1..];
      r
  }

  /** Adding never moves what is already there: the old set is a prefix of
      the new one. */
  lemma {:induction false} AddAllExtends<T(!new)>(s: seq<T>, xs: seq<T>)
    ensures s <= AddAll(s, xs)
    decreases |xs|
  {
    if |xs| > 0 {
      AddAllExtends(Add(s, xs[0]), xs[1..]);
    }
  }

  /** Adding a sequence in two pieces is adding it at once. */
  lemma {:induction false} AddAllConcat<T(!new)>(s: seq<T>, xs: seq<T>, ys: seq<T>)
    ensures AddAll(AddAll(s, xs), ys) == AddAll(s, xs + ys)
    decreases |xs|
  {
    if |xs| > 0 {
      assert (xs + ys)[0] == xs[0] && (xs + ys)[1..] == xs[1..] + ys;
      AddAllConcat(Add(s, xs[0]), xs[1..], ys);
    } else {
      assert xs + ys == ys;
    }
  }

  /** Adding elements none of which is present, and no two alike, appends
      them. */
  lemma {:induction false} AddAllFresh<T(!new)>(s: seq<T>, xs: seq<T>)
    requires NoDuplicates(s + xs)
    ensures AddAll(s, xs) == s + xs
    decreases |xs|
  {
    if |xs| > 0 {
      assert (s + xs)[|s|] == xs[0];
      assert xs[0] !in s by {
        forall i | 0 <= i < |s| ensures s[i] != xs[0] {
          assert (s + xs)[i] == s[i];
        }
      }
      assert s + xs == (s + [xs[0]]) + xs[1..];
      AddAllFresh(s + [xs[0]], xs[1..]);
    }
  }
}
