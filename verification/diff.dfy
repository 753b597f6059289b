/**
 The diff that picks the clips to announce: the fetched clips whose
 identifier is not in the list of identifiers already sent.
 */
module Diff {
  import opened Clips

  /** Keeps the fetched clips whose identifier is not among the sent ones,
      in fetch order. */
  function NewClips(fetched: seq<Clip>, sent: seq<string>): (r: seq<Clip>)
    ensures forall c :: c in r <==> c in fetched && c.id !in sent
    ensures |r| <= |fetched|
    ensures |r| == 0 <==> forall c :: c in fetched ==> c.id in sent
  {
    if |fetched| == 0 then []
    else if fetched[0].id in sent then NewClips(fetched[1..], sent)
    else [fetched[0]] + NewClips(fetched[1..], sent)
  }

  /** The diff is a filter applied clip by clip: it distributes over
      concatenation, so it keeps fetch order and never reorders. */
  lemma {:induction false} NewClipsDistributes(a: seq<Clip>, b: seq<Clip>, sent: seq<string>)
    ensures NewClips(a + b, sent) == NewClips(a, sent) + NewClips(b, sent)
    decreases |a|
  {
    if |a| > 0 {
      assert (a + b)[0] == a[0];
      assert (a + b)[1..] == a[1..] + b;
      NewClipsDistributes(a[1..], b, sent);
    } else {
      assert a + b == b;
    }
  }

  /** With nothing sent before, every fetched clip is new, in fetch order. */
  lemma {:induction false} NewClipsOnEmptyLog(fetched: seq<Clip>)
    ensures NewClips(fetched, []) == fetched
    decreases |fetched|
  {
    if |fetched| > 0 {
      NewClipsOnEmptyLog(fetched[1..]);
      assert fetched == [fetched[0]] + fetched[1..];
    }
  }

  /** Every clip the diff keeps occurs in the fetched list at least as often
      as in the diff, so each announcement corresponds to a fetched clip. */
  lemma {:induction false} NewClipsSubMultiset(fetched: seq<Clip>, sent: seq<string>)
    ensures multiset(NewClips(fetched, sent)) <= multiset(fetched)
    decreases |fetched|
  {
    if |fetched| > 0 {
      NewClipsSubMultiset(fetched[1..], sent);
      assert fetched == [fetched[0]] + fetched[1..];
    }
  }
}
