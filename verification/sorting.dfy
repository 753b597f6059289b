/**
 The sort the save step applies before comparing: a stable sort of clip
 records by identifier. Modelled as insertion sort, each clip placed after every
 earlier clip whose identifier is not greater, which is what a stable sort
 produces.
 */
module Sorting {
  import opened IdOrder
  import opened Clips

  /** Identifiers never decrease along the list. */
  predicate SortedById(s: seq<Clip>) {
    forall i, j :: 0 <= i < j < |s| ==> NotAfter(s[i].id, s[j].id)
  }

  /** No identifier in `s` is greater than `id`. */
  predicate NoneAfter(s: seq<Clip>, id: string) {
    forall k :: 0 <= k < |s| ==> NotAfter(s[k].id, id)
  }

  /** Places `c` before the first clip whose identifier is greater than its own. */
  function Insert(s: seq<Clip>, c: Clip): (r: seq<Clip>)
    ensures multiset(r) == multiset(s) + multiset{c}
  {
    if |s| == 0 then [c]
    else if Below(c.id, s[0].id) then [c] + s
    else
      assert s == [s[0]] + s[1..];
      [s[0]] + Insert(s[1..], c)
  }

  lemma {:induction false} InsertKeepsSorted(s: seq<Clip>, c: Clip)
    requires SortedById(s)
    ensures SortedById(Insert(s, c))
    decreases |s|
  {
    if |s| == 0 {
    } else if Below(c.id, s[0].id) {
      forall k | 0 <= k < |s|
        ensures NotAfter(c.id, s[k].id)
      {
        NotAfterTransitive(c.id, s[0].id, s[k].id);
      }
    } else {
      NotBelowIsNotAfter(s[0].id, c.id);
      InsertKeepsSorted(s[1..], c);
      var t := Insert(s[1..], c);
      forall k | 0 <= k < |t|
        ensures NotAfter(s[0].id, t[k].id)
      {
        assert t[k] in multiset(t);
      }
    }
  }

  /** The id-sorted permutation of `s`. */
  function SortById(s: seq<Clip>): (r: seq<Clip>)
    ensures multiset(r) == multiset(s)
    ensures SortedById(r)
    decreases |s|
  {
    if |s| == 0 then []
    else
      var init := SortById(s[..|s| - 1]);
      assert s == s[..|s| - 1] + [s[|s| - 1]];
      InsertKeepsSorted(init, s[|s| - 1]);
      Insert(init, s[|s| - 1])
  }

  /** A clip at least as large as every listed one goes to the end. */
  lemma {:induction false} InsertAtEnd(s: seq<Clip>, c: Clip)
    requires NoneAfter(s, c.id)
    ensures Insert(s, c) == s + [c]
    decreases |s|
  {
    if |s| > 0 {
      NotBelowIsNotAfter(s[0].id, c.id);
      InsertAtEnd(s[1..], c);
      assert s == [s[0]] + s[1..];
    }
  }

  /** Dropping the last clip of a sorted list leaves a sorted list, all of
      whose identifiers are at most the last one's. */
  lemma SortedInit(s: seq<Clip>)
    requires SortedById(s) && |s| > 0
    ensures SortedById(s[..|s| - 1])
    ensures NoneAfter(s[..|s| - 1], s[|s| - 1].id)
  {
  }

  lemma SplitLast(s: seq<Clip>)
    requires |s| > 0
    ensures s == s[..|s| - 1] + [s[|s| - 1]]
  {
  }

  /** The sort inserts the last clip into the sorted rest. */
  lemma SortByIdStep(s: seq<Clip>)
    requires |s| > 0
    ensures SortById(s) == Insert(SortById(s[..|s| - 1]), s[|s| - 1])
  {
  }

  /** Sorting an already sorted list leaves it as it is. */
  lemma {:induction false} SortByIdOfSorted(s: seq<Clip>)
    requires SortedById(s)
    ensures SortById(s) == s
    decreases |s|
  {
    if |s| > 0 {
      var init, last := s[..|s| - 1], s[|s| - 1];
      SortedInit(s);
      SortByIdOfSorted(init);
      InsertAtEnd(init, last);
      SortByIdStep(s);
      SplitLast(s);
    }
  }

  /** Two non-empty sorted lists with the same clips start with the same
      clip, when a clip's identifier determines the clip. */
  lemma SortedHeadsAgree(a: seq<Clip>, b: seq<Clip>)
    requires SortedById(a) && SortedById(b)
    requires multiset(a) == multiset(b) && |a| > 0 && |b| > 0
    requires IdsIdentify(a)
    ensures a[0] == b[0]
  {
    assert a[0] in multiset(b);
    var k :| 0 <= k < |b| && b[k] == a[0];
    assert b[0] in multiset(a);
    var j :| 0 <= j < |a| && a[j] == b[0];
    assert NotAfter(a[0].id, a[j].id);
    assert NotAfter(b[0].id, b[k].id);
    NotAfterAntisymmetric(a[0].id, b[0].id);
  }

  lemma SortedTail(s: seq<Clip>)
    requires SortedById(s) && |s| > 0
    ensures SortedById(s[1..])
  {
  }

  /** Two sorted lists with the same clips are the same list, when a clip's
      identifier determines the clip. */
  lemma {:induction false} SortedPermutationsAgree(a: seq<Clip>, b: seq<Clip>)
    requires SortedById(a) && SortedById(b)
    requires multiset(a) == multiset(b)
    requires IdsIdentify(a)
    ensures a == b
    decreases |a|
  {
    assert |a| == |multiset(a)| == |multiset(b)| == |b|;
    if |a| > 0 {
      SortedHeadsAgree(a, b);
      assert a == [a[0]] + a[1..];
      assert b == [b[0]] + b[1..];
      assert multiset(a[1..]) == multiset(a) - multiset{a[0]};
      assert multiset(b[1..]) == multiset(b) - multiset{b[0]};
      SortedTail(a);
      SortedTail(b);
      SortedPermutationsAgree(a[1..], b[1..]);
    }
  }

  /** Sorting by identifier forgets the order the clips came in: two
      arrangements of the same clips sort to the same list, when a clip's
      identifier determines the clip. Two different clips sharing an
      identifier keep their input order, so their arrangements can differ. */
  lemma SortByIdIgnoresOrder(a: seq<Clip>, b: seq<Clip>)
    requires multiset(a) == multiset(b)
    requires IdsIdentify(a)
    ensures SortById(a) == SortById(b)
  {
    var sa, sb := SortById(a), SortById(b);
    forall x, y | x in sa && y in sa && x.id == y.id
      ensures x == y
    {
      assert x in multiset(sa) && y in multiset(sa);
      assert x in a && y in a;
    }
    SortedPermutationsAgree(sa, sb);
  }
}
