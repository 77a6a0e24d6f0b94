/** Sequence facts the view queues rely on: reversal, distinctness, element sets. */
module Sequences {

  function Last<T>(s: seq<T>): T
    requires s != []
  {
    s[|s| - 1]
  }

  function DropLast<T>(s: seq<T>): seq<T>
    requires s != []
  {
    s[..|s| - 1]
  }

  /** The elements of `s` in the opposite order: the last element first. */
  function Reversed<T>(s: seq<T>): (r: seq<T>)
    ensures |r| == |s|
    decreases |s|
  {
    if s == [] then [] else [Last(s)] + Reversed(DropLast(s))
  }

  /** The set of elements of `s`. */
  function Elements<T>(s: seq<T>): set<T>
  {
    set x | x in s
  }

  /** No element occurs twice in `s`. */
  ghost predicate Distinct<T(!new)>(s: seq<T>)
  {
    forall x :: multiset(s)[x] <= 1
  }

  /** Reversal turns a concatenation around. */
  lemma {:induction false} ReversedAppend<T>(a: seq<T>, b: seq<T>)
    ensures Reversed(a + b) == Reversed(b) + Reversed(a)
    decreases |b|
  {
    if b == [] {
      assert a + b == a;
    } else {
      assert Last(a + b) == Last(b);
      assert DropLast(a + b) == a + DropLast(b);
      ReversedAppend(a, DropLast(b));
    }
  }

  /** Reversing twice gives the sequence back. */
  lemma {:induction false} ReversedReversed<T>(s: seq<T>)
    ensures Reversed(Reversed(s)) == s
    decreases |s|
  {
    if s != [] {
      ReversedAppend([Last(s)], Reversed(DropLast(s)));
      ReversedReversed(DropLast(s));
      assert Reversed([Last(s)]) == [Last(s)];
      assert DropLast(s) + [Last(s)] == s;
    }
  }

  /** Reversal keeps every element with its number of occurrences. */
  lemma {:induction false} ReversedMultiset<T>(s: seq<T>)
    ensures multiset(Reversed(s)) == multiset(s)
    decreases |s|
  {
    if s != [] {
      ReversedMultiset(DropLast(s));
      assert DropLast(s) + [Last(s)] == s;
    }
  }

  /** Reversal keeps the set of elements. */
  lemma ReversedElements<T>(s: seq<T>)
    ensures Elements(Reversed(s)) == Elements(s)
  {
    ReversedMultiset(s);
    forall x | x in Reversed(s) ensures x in s {
      assert x in multiset(Reversed(s));
    }
    forall x | x in s ensures x in Reversed(s) {
      assert x in multiset(s);
    }
  }

  /** In a sequence without repetitions, an element does not occur again before its own position. */
  lemma DistinctNotBefore<T(!new)>(a: seq<T>, x: T, b: seq<T>)
    requires Distinct(a + [x] + b)
    ensures x !in a
  {
    assert multiset(a + [x] + b) == multiset(a) + multiset{x} + multiset(b);
    assert multiset(a + [x] + b)[x] == multiset(a)[x] + 1 + multiset(b)[x];
  }

  /** Concatenation is associative. */
  lemma AppendAssoc<T>(a: seq<T>, b: seq<T>, c: seq<T>)
    ensures a + (b + c) == (a + b) + c
  {
  }
}
