/** Sequence facts shared by the models. */
module Lists {
  /** Concatenation regroups; stated once so that callers can name the three parts. */
  lemma AppendAssociates<T>(a: seq<T>, b: seq<T>, c: seq<T>)
    ensures a + b + c == a + (b + c)
  {
  }

  /** List<T>.Remove on reference types: drop the first element equal to x, if any. */
  function RemoveFirst<T(==)>(xs: seq<T>, x: T): (r: seq<T>)
    ensures multiset(r) == multiset(xs) - multiset{x}
    ensures forall y :: y in r ==> y in xs
    ensures forall y :: y in xs ==> y in r || y == x
  {
    if xs == [] then []
    else
      assert xs == [xs[0]] + xs[1..];
      if xs[0] == x then xs[1..] else [xs[0]] + RemoveFirst(xs[1..], x)
  }

  /** Removing an absent element leaves the list as it was. */
  lemma {:induction false} RemoveAbsent<T>(xs: seq<T>, x: T)
    requires x !in xs
    ensures RemoveFirst(xs, x) == xs
  {
    if xs != [] {
      RemoveAbsent(xs[1..], x);
    }
  }

  /** Removing an element right after appending it to a list that did not hold it gives
      the list back. */
  lemma {:induction false} RemoveJustAppended<T>(xs: seq<T>, x: T)
    requires x !in xs
    ensures RemoveFirst(xs + [x], x) == xs
  {
    if xs == [] {
      assert [x][1..] == [];
    } else {
      assert (xs + [x])[1..] == xs[1..] + [x];
      RemoveJustAppended(xs[1..], x);
    }
  }

  /** Only the first occurrence goes: the elements before it stay, and so do the ones
      after it, including any later copies of x. */
  lemma {:induction false} RemoveFirstSplits<T>(xs: seq<T>, x: T, i: nat)
    requires i < |xs| && xs[i] == x && x !in xs[..i]
    ensures RemoveFirst(xs, x) == xs[..i] + xs[i + 1..]
  {
    if i > 0 {
      var tail := xs[1..];
      assert xs[0] != x by {
        assert xs[..i][0] == xs[0];
      }
      assert x !in tail[..i - 1] by {
        assert tail[..i - 1] == xs[1..i];
        assert xs[..i] == [xs[0]] + xs[1..i];
      }
      RemoveFirstSplits(tail, x, i - 1);
      assert RemoveFirst(xs, x) == [xs[0]] + RemoveFirst(tail, x);
      assert RemoveFirst(tail, x) == xs[1..i] + xs[i + 1..] by {
        assert tail[..i - 1] == xs[1..i];
        assert tail[i..] == xs[i + 1..];
      }
      AppendAssociates([xs[0]], xs[1..i], xs[i + 1..]);
      assert [xs[0]] + xs[1..i] == xs[..i];
    }
  }
}
