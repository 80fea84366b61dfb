/** What the count/overlap clauses of the relationship queries mean for a
    stored note set `notes` and a plain base list `b` of n names:
    `COUNT(*) = size AND COUNT(note IN b) = hits`. */
module Shapes {
  import opened Alphabet

  lemma CardinalitySplit(a: set<PitchClass>, c: set<PitchClass>)
    ensures |a| == |a * c| + |a - c|
  {
    assert a == (a * c) + (a - c);
    assert (a * c) * (a - c) == {};
  }

  /** The set facts behind the clauses, for a stored set a and a base set c. */
  lemma SameCore(a: set<PitchClass>, c: set<PitchClass>)
    ensures (|a| == |c| && |a * c| == |c|) <==> a == c
  {
    CardinalitySplit(a, c);
    CardinalitySplit(c, a);
    assert a * c == c * a;
    if |a| == |c| && |a * c| == |c| {
      assert |a - c| == 0 && |c - a| == 0;
      assert a - c == {} && c - a == {};
    }
  }

  lemma AddedCore(a: set<PitchClass>, c: set<PitchClass>)
    ensures (|a| == |c| + 1 && |a * c| == |c|) <==> c < a && |a - c| == 1
  {
    CardinalitySplit(a, c);
    CardinalitySplit(c, a);
    assert a * c == c * a;
    if |a| == |c| + 1 && |a * c| == |c| {
      assert |c - a| == 0;
      assert c - a == {};
      forall x | x in c ensures x in a {
        assert x !in c - a;
      }
    }
    if c < a && |a - c| == 1 {
      assert a * c == c;
      assert |a| == |c| + 1;
    }
  }

  lemma RemovedCore(a: set<PitchClass>, c: set<PitchClass>)
    ensures (|a| == |c| - 1 && |a * c| == |c| - 1) <==> a < c && |c - a| == 1
  {
    CardinalitySplit(a, c);
    CardinalitySplit(c, a);
    assert a * c == c * a;
    if |a| == |c| - 1 && |a * c| == |c| - 1 {
      assert |a - c| == 0;
      assert a - c == {};
      forall x | x in a ensures x in c {
        assert x !in a - c;
      }
    }
    if a < c && |c - a| == 1 {
      assert a * c == a;
      assert |a| == |c| - 1;
    }
  }

  lemma SwappedCore(a: set<PitchClass>, c: set<PitchClass>)
    ensures (|a| == |c| && |a * c| == |c| - 1) <==> |a - c| == 1 && |c - a| == 1
    ensures |a| == |c| && |a * c| == |c| - 1 ==> a != c
  {
    CardinalitySplit(a, c);
    CardinalitySplit(c, a);
    assert a * c == c * a;
  }

  /** Sizes n and n overlap n: the same note set (rotations, and
      getChordCategoryAndTriadBase). */
  lemma SameSet(notes: set<PitchClass>, b: seq<string>)
    requires PlainNoteList(b)
    ensures (|notes| == |b| && Hits(notes, b) == |b|) <==> notes == NamedSet(b)
  {
    NamedSetSize(b);
    SameCore(notes, NamedSet(b));
  }

  /** Size n+1 with all n base notes: the base plus exactly one note
      (appendments and extensions). */
  lemma OneAdded(notes: set<PitchClass>, b: seq<string>)
    requires PlainNoteList(b)
    ensures (|notes| == |b| + 1 && Hits(notes, b) == |b|) <==> NamedSet(b) < notes && |notes - NamedSet(b)| == 1
  {
    NamedSetSize(b);
    AddedCore(notes, NamedSet(b));
  }

  /** Size n-1, all drawn from the base: the base minus exactly one note
      (deductions). */
  lemma OneRemoved(notes: set<PitchClass>, b: seq<string>)
    requires PlainNoteList(b)
    ensures (|notes| == |b| - 1 && Hits(notes, b) == |b| - 1) <==> notes < NamedSet(b) && |NamedSet(b) - notes| == 1
  {
    NamedSetSize(b);
    RemovedCore(notes, NamedSet(b));
  }

  /** Size n with n-1 base notes: one base note swapped for another, so never
      the base itself (alterations). */
  lemma OneSwapped(notes: set<PitchClass>, b: seq<string>)
    requires PlainNoteList(b)
    ensures (|notes| == |b| && Hits(notes, b) == |b| - 1) <==> |notes - NamedSet(b)| == 1 && |NamedSet(b) - notes| == 1
    ensures |notes| == |b| && Hits(notes, b) == |b| - 1 ==> notes != NamedSet(b)
  {
    NamedSetSize(b);
    SwappedCore(notes, NamedSet(b));
  }
}
