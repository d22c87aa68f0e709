/** Laws of the list appliers: adding new items, removing items, lists without repetition. */
module ListLaws {
  import opened GameConstants
  import opened GameSession

  lemma AddAllNothing<T(!new)>(s: seq<T>)
    ensures AddAll(s, []) == s && RemoveAll(s, []) == s
  {
  }

  lemma {:induction false} AddingKeepsDistinct<T(!new)>(s: seq<T>, xs: seq<T>)
    requires NoRepeats(s)
    ensures NoRepeats(AddAll(s, xs))
    decreases |xs|
  {
    if xs != [] {
      AddingKeepsDistinct(AddNew(s, xs[0]), xs[1..]);
    }
  }

  lemma {:induction false} AddingDistinct<T(!new)>(s: seq<T>, xs: seq<T>)
    requires NoRepeats(s + xs)
    ensures AddAll(s, xs) == s + xs
    decreases |xs|
  {
    if xs == [] {
      assert s + xs == s;
    } else {
      assert (s + xs)[|s|] == xs[0];
      assert forall k :: 0 <= k < |s| ==> (s + xs)[k] == s[k];
      assert (s + [xs[0]]) + xs[1..] == s + xs;
      AddingDistinct(s + [xs[0]], xs[1..]);
    }
  }

  lemma {:induction false} AddingKnownChangesNothing<T(!new)>(s: seq<T>, xs: seq<T>)
    ensures AddAll(s, xs) == s <==> forall x :: x in xs ==> x in s
    decreases |xs|
  {
    if xs != [] {
      AddingKnownChangesNothing(AddNew(s, xs[0]), xs[1..]);
      if xs[0] !in s {
        AddAllGrows(s + [xs[0]], xs[1..]);
      } else {
        assert forall x :: x in xs <==> x == xs[0] || x in xs[1..];
      }
    }
  }

  lemma {:induction false} AddAllGrows<T(!new)>(s: seq<T>, xs: seq<T>)
    ensures |s| <= |AddAll(s, xs)|
    decreases |xs|
  {
    if xs != [] {
      AddAllGrows(AddNew(s, xs[0]), xs[1..]);
    }
  }

  // ---- Tails ---------------------------------------------------------------

  lemma TailOfTail<T>(s: seq<T>, n: nat, m: nat)
    requires n <= m
    ensures Tail(Tail(s, m), n) == Tail(s, n)
  {
  }

  lemma TailOfMore<T>(s: seq<T>, x: T, n: nat)
    ensures Tail(s + [x], n + 1) == Tail(s, n) + [x]
  {
  }
}
