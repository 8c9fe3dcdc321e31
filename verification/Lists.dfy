/** Sequence vocabulary shared by the relayer's list-valued state. */
module Lists {

  datatype Option<+T> = None | Some(value: T)

  /** No element occurs twice. */
  predicate Distinct<T(==)>(xs: seq<T>) {
    forall i, j :: 0 <= i < j < |xs| ==> xs[i] != xs[j]
  }

  function Reverse<T>(xs: seq<T>): (r: seq<T>)
    ensures |r| == |xs|
  {
    if xs == [] then [] else Reverse(xs[1..]) + [xs[0]]
  }

  /** Every occurrence of `x` removed, the rest in its old order. */
  function Without<T(==)>(xs: seq<T>, x: T): (r: seq<T>)
    ensures |r| <= |xs|
  {
    if xs == [] then []
    else if xs[0] == x then Without(xs[1..], x)
    else [xs[0]] + Without(xs[1..], x)
  }

  function Occurrences<T(==)>(xs: seq<T>, x: T): (n: nat)
    ensures n <= |xs|
  {
    if xs == [] then 0 else (if xs[0] == x then 1 else 0) + Occurrences(xs[1..], x)
  }

  lemma DistinctTail<T>(xs: seq<T>)
    requires xs != []
    ensures Distinct(xs) <==> xs[0] !in xs[1..] && Distinct(xs[1..])
  {
    var rest := xs[1..];
    assert forall j | 0 < j < |xs| :: xs[j] == rest[j - 1];
    if Distinct(xs) {
      assert forall j | 0 <= j < |rest| :: rest[j] == xs[j + 1];
    }
  }

  lemma {:induction false} ReverseAt<T>(xs: seq<T>, k: nat)
    requires k < |xs|
    ensures Reverse(xs)[k] == xs[|xs| - 1 - k]
  {
    if k < |xs| - 1 {
      ReverseAt(xs[1..], k);
    }
  }

  lemma ReverseMembers<T>(xs: seq<T>)
    ensures forall y :: y in Reverse(xs) <==> y in xs
  {
    if xs != [] {
      ReverseMembers(xs[1..]);
      assert xs == [xs[0]] + xs[1..];
    }
  }

  lemma ReverseDistinct<T>(xs: seq<T>)
    requires Distinct(xs)
    ensures Distinct(Reverse(xs))
  {
    forall i, j | 0 <= i < j < |xs| ensures Reverse(xs)[i] != Reverse(xs)[j] {
      ReverseAt(xs, i);
      ReverseAt(xs, j);
    }
  }

  lemma {:induction false} ReverseMultiset<T>(xs: seq<T>)
    ensures multiset(Reverse(xs)) == multiset(xs)
  {
    if xs != [] {
      ReverseMultiset(xs[1..]);
      assert xs == [xs[0]] + xs[1..];
    }
  }

  lemma WithoutMembers<T>(xs: seq<T>, x: T)
    ensures forall y :: y in Without(xs, x) <==> y in xs && y != x
  {
    if xs != [] {
      WithoutMembers(xs[1..], x);
      assert xs == [xs[0]] + xs[1..];
    }
  }

  lemma {:induction false} WithoutDistinct<T>(xs: seq<T>, x: T)
    requires Distinct(xs)
    ensures Distinct(Without(xs, x))
  {
    if xs != [] {
      WithoutDistinct(xs[1..], x);
      WithoutMembers(xs[1..], x);
      assert xs[0] !in xs[1..];
    }
  }

  lemma {:induction false} WithoutMultiset<T>(xs: seq<T>, x: T)
    ensures multiset(Without(xs, x)) == multiset(xs)[x := 0]
  {
    if xs != [] {
      WithoutMultiset(xs[1..], x);
      assert xs == [xs[0]] + xs[1..];
    }
  }

  lemma WithoutAbsent<T>(xs: seq<T>, x: T)
    requires x !in xs
    ensures Without(xs, x) == xs
  {
    if xs != [] {
      assert xs == [xs[0]] + xs[1..];
      WithoutAbsent(xs[1..], x);
    }
  }

  /** What one `lRem(key, 0, x)` does to a list, as far as membership goes. */
  lemma RemovedMembers<T>(xs: seq<T>, x: T)
    ensures forall y :: y in Reverse(Without(xs, x)) <==> y in xs && y != x
    ensures multiset(Reverse(Without(xs, x))) == multiset(xs)[x := 0]
    ensures Distinct(xs) ==> Distinct(Reverse(Without(xs, x)))
  {
    WithoutMembers(xs, x);
    ReverseMembers(Without(xs, x));
    WithoutMultiset(xs, x);
    ReverseMultiset(Without(xs, x));
    if Distinct(xs) {
      WithoutDistinct(xs, x);
      ReverseDistinct(Without(xs, x));
    }
  }

  /** Every element once. */
  function Deduped<T(==, !new)>(xs: seq<T>): (r: seq<T>)
    ensures |r| <= |xs| && forall x :: x in r <==> x in xs
  {
    if xs == [] then []
    else
      assert xs == [xs[0]] + xs[1..];
      if xs[0] in xs[1..] then Deduped(xs[1..]) else [xs[0]] + Deduped(xs[1..])
  }

  lemma {:induction false} DedupedDistinct<T(!new)>(xs: seq<T>)
    ensures Distinct(Deduped(xs))
  {
    if xs != [] {
      DedupedDistinct(xs[1..]);
      if xs[0] !in xs[1..] {
        assert Deduped(xs)[1..] == Deduped(xs[1..]);
        DistinctTail(Deduped(xs));
      }
    }
  }
}
