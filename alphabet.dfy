/** The twelve pitch-class names, the note sets stored in the corpus, the
    overlap counts the queries' HAVING clauses compute over them, the note
    order of a scale's comma-joined note list, and the split that reads that
    list back. */
module Alphabet {
  import opened Ordering

  /** A pitch class is its position in NoteNames. */
  type PitchClass = p: int | 0 <= p < 12

  /** The names validateNotesInput accepts, already in ascending string order. */
  const NoteNames: seq<string> := ["A", "A#", "B", "C", "C#", "D", "D#", "E", "F", "F#", "G", "G#"]

  function Name(p: PitchClass): string {
    NoteNames[p]
  }

  predicate IsNoteName(s: string) {
    s in NoteNames
  }

  function IndexOf(s: string): (p: PitchClass)
    requires IsNoteName(s)
    ensures Name(p) == s
  {
    if s == "A" then 0 else if s == "A#" then 1 else if s == "B" then 2
    else if s == "C" then 3 else if s == "C#" then 4 else if s == "D" then 5
    else if s == "D#" then 6 else if s == "E" then 7 else if s == "F" then 8
    else if s == "F#" then 9 else if s == "G" then 10 else 11
  }

  /** Each name is strictly below the next one in string order. */
  lemma AdjacentNamesAscend(p: PitchClass)
    requires p < 11
    ensures StrLe(Name(p), Name(p + 1)) && Name(p) != Name(p + 1)
  {
    if p == 0 { assert Name(0) == "A" && Name(1) == "A#"; }
    else if p == 1 { assert Name(1) == "A#" && Name(2) == "B"; }
    else if p == 2 { assert Name(2) == "B" && Name(3) == "C"; }
    else if p == 3 { assert Name(3) == "C" && Name(4) == "C#"; }
    else if p == 4 { assert Name(4) == "C#" && Name(5) == "D"; }
    else if p == 5 { assert Name(5) == "D" && Name(6) == "D#"; }
    else if p == 6 { assert Name(6) == "D#" && Name(7) == "E"; }
    else if p == 7 { assert Name(7) == "E" && Name(8) == "F"; }
    else if p == 8 { assert Name(8) == "F" && Name(9) == "F#"; }
    else if p == 9 { assert Name(9) == "F#" && Name(10) == "G"; }
    else { assert Name(10) == "G" && Name(11) == "G#"; }
  }

  lemma {:induction false} NamesAscend(p: PitchClass, q: PitchClass)
    requires p < q
    ensures StrLe(Name(p), Name(q)) && Name(p) != Name(q)
    decreases q - p
  {
    AdjacentNamesAscend(p);
    if p + 1 < q {
      NamesAscend(p + 1, q);
      StrLeTransitive(Name(p), Name(p + 1), Name(q));
      if Name(p) == Name(q) {
        StrLeAntisymmetric(Name(p), Name(p + 1));
      }
    }
  }

  /** String order on the names is the order of their positions: SQL's
      `root_note >= ?` and `ORDER BY root_note ASC` on stored names agree with
      comparing pitch classes as numbers. */
  lemma NameOrder(p: PitchClass, q: PitchClass)
    ensures StrLe(Name(p), Name(q)) <==> p <= q
  {
    if p < q {
      NamesAscend(p, q);
    } else if p == q {
      StrLeReflexive(Name(p));
    } else {
      NamesAscend(q, p);
      if StrLe(Name(p), Name(q)) {
        StrLeAntisymmetric(Name(p), Name(q));
      }
    }
  }

  lemma NameInjective(p: PitchClass, q: PitchClass)
    ensures Name(p) == Name(q) ==> p == q
  {
    if p < q { NamesAscend(p, q); }
    if q < p { NamesAscend(q, p); }
  }

  /** The pitch classes a list of strings names (strings that are not note
      names name nothing). */
  function NamedSet(names: seq<string>): set<PitchClass> {
    set p: PitchClass | 0 <= p < 12 && Name(p) in names
  }

  /** `COUNT(CASE WHEN note IN (names) THEN 1 END)` over one stored note set. */
  function Hits(notes: set<PitchClass>, names: seq<string>): nat {
    |notes * NamedSet(names)|
  }

  function Min(a: int, b: int): int {
    if a <= b then a else b
  }

  /** The limiter clause `COUNT(note IN L) = LEAST(COUNT(DISTINCT note), |L|)`,
      |L| being the number of list entries. */
  predicate LimiterOk(notes: set<PitchClass>, limiter: seq<string>) {
    Hits(notes, limiter) == Min(|notes|, |limiter|)
  }

  /** A list of distinct note names. */
  predicate PlainNoteList(names: seq<string>) {
    (forall i | 0 <= i < |names| :: IsNoteName(names[i]))
    && (forall i, j | 0 <= i < j < |names| :: names[i] != names[j])
  }

  lemma {:induction false} NamedSetSize(names: seq<string>)
    requires PlainNoteList(names)
    ensures |NamedSet(names)| == |names|
    decreases |names|
  {
    if |names| > 0 {
      var last := names[|names| - 1];
      var front := names[..|names| - 1];
      assert PlainNoteList(front);
      NamedSetSize(front);
      assert names == front + [last];
      NamedSetSnoc(front, last);
      assert last !in front;
      assert IndexOf(last) !in NamedSet(front);
    }
  }

  /** Appending a name adds its pitch class. */
  lemma NamedSetSnoc(front: seq<string>, last: string)
    requires IsNoteName(last)
    ensures NamedSet(front + [last]) == NamedSet(front) + {IndexOf(last)}
  {
    var p := IndexOf(last);
    forall q: PitchClass ensures q in NamedSet(front + [last]) <==> q in NamedSet(front) + {p} {
      NameInjective(p, q);
    }
  }

  lemma SubsetOfSameSize<T>(a: set<T>, b: set<T>)
    requires a <= b && |a| == |b|
    ensures a == b
  {
    assert b == a + (b - a);
  }

  /** The limiter rule as set inclusion: for a plain limiter list, a candidate
      passes exactly when it lies inside the limiter's notes or holds all of
      them. A candidate is therefore never turned away only because the
      limiter is larger than it. */
  lemma LimiterRule(notes: set<PitchClass>, limiter: seq<string>)
    requires PlainNoteList(limiter)
    ensures LimiterOk(notes, limiter) <==> notes <= NamedSet(limiter) || NamedSet(limiter) <= notes
  {
    var l := NamedSet(limiter);
    NamedSetSize(limiter);
    var common := notes * l;
    assert |common| <= |notes| && |common| <= |l| by {
      assert notes == common + (notes - common);
      assert l == common + (l - common);
    }
    if notes <= l {
      assert common == notes;
    } else if l <= notes {
      assert common == l;
    } else {
      if |common| == |notes| {
        SubsetOfSameSize(common, notes);
      }
      if |common| == |l| {
        SubsetOfSameSize(common, l);
      }
    }
  }

  /** The members of s in [lo, hi), in ascending order. Its properties are
      AscendingFacts. */
  function Ascending(s: set<PitchClass>, lo: int, hi: int): seq<PitchClass>
    requires 0 <= lo <= hi <= 12
    decreases hi - lo
  {
    if lo == hi then [] else (if lo in s then [lo] else []) + Ascending(s, lo + 1, hi)
  }

  /** Ascending lists exactly the members of s in [lo, hi), in strictly
      ascending order. */
  lemma {:induction false} AscendingFacts(s: set<PitchClass>, lo: int, hi: int)
    requires 0 <= lo <= hi <= 12
    ensures forall x :: x in Ascending(s, lo, hi) <==> x in s && lo <= x < hi
    ensures forall i, j | 0 <= i < j < |Ascending(s, lo, hi)| :: Ascending(s, lo, hi)[i] < Ascending(s, lo, hi)[j]
    decreases hi - lo
  {
    if lo < hi {
      AscendingFacts(s, lo + 1, hi);
      var rest := Ascending(s, lo + 1, hi);
      var r := Ascending(s, lo, hi);
      assert r == (if lo in s then [lo] else []) + rest;
      forall i, j | 0 <= i < j < |r| ensures r[i] < r[j] {
        if lo in s {
          assert r[j] == rest[j - 1] && r[j] in rest;
          if i > 0 { assert r[i] == rest[i - 1]; }
        }
      }
    }
  }

  /** The note order `ORDER BY CASE WHEN note >= root THEN 1 ELSE 2 END, note ASC`
      gives a scale's notes: ascending from the root, then ascending below it. */
  function RotatedFrom(s: set<PitchClass>, root: PitchClass): seq<PitchClass> {
    Ascending(s, root, 12) + Ascending(s, 0, root)
  }

  /** The rotated list holds every stored note exactly once, those at or above
      the root first, each part ascending. */
  lemma RotatedFromFacts(s: set<PitchClass>, root: PitchClass)
    ensures forall x :: x in RotatedFrom(s, root) <==> x in s
    ensures forall i, j | 0 <= i < j < |RotatedFrom(s, root)| :: RotatedFrom(s, root)[i] != RotatedFrom(s, root)[j]
    ensures forall i, j | 0 <= i < j < |RotatedFrom(s, root)| ::
      var a, b := RotatedFrom(s, root)[i], RotatedFrom(s, root)[j];
      (a >= root && b < root) || ((a >= root) == (b >= root) && a < b)
    ensures root in s ==> |RotatedFrom(s, root)| > 0 && RotatedFrom(s, root)[0] == root
  {
    var hi, lo := Ascending(s, root, 12), Ascending(s, 0, root);
    AscendingFacts(s, root, 12);
    AscendingFacts(s, 0, root);
    var r := RotatedFrom(s, root);
    assert r == hi + lo;
    forall i, j | 0 <= i < j < |r|
      ensures r[i] != r[j]
      ensures (r[i] >= root && r[j] < root) || ((r[i] >= root) == (r[j] >= root) && r[i] < r[j])
    {
      if j < |hi| {
        assert r[i] == hi[i] && r[j] == hi[j];
        assert hi[i] in hi && hi[j] in hi;
      } else if i < |hi| {
        assert r[i] == hi[i] && r[i] in hi;
        assert r[j] == lo[j - |hi|] && r[j] in lo;
      } else {
        assert r[i] == lo[i - |hi|] && r[j] == lo[j - |hi|];
        assert r[i] in lo && r[j] in lo;
      }
    }
    if root in s {
      assert root in hi;
      assert hi[0] in hi;
    }
  }

  function NamesOf(ps: seq<PitchClass>): seq<string> {
    if |ps| == 0 then [] else [Name(ps[0])] + NamesOf(ps[1..])
  }

  /** NamesOf names each pitch class in place. */
  lemma {:induction false} NamesOfFacts(ps: seq<PitchClass>)
    ensures |NamesOf(ps)| == |ps|
    ensures forall i | 0 <= i < |ps| :: NamesOf(ps)[i] == Name(ps[i])
  {
    if |ps| > 0 {
      NamesOfFacts(ps[1..]);
      assert forall i | 0 < i < |ps| :: ps[1..][i - 1] == ps[i];
    }
  }

  /** GROUP_CONCAT's default separator. */
  function Join(names: seq<string>): string {
    if |names| == 0 then ""
    else if |names| == 1 then names[0]
    else names[0] + "," + Join(names[1..])
  }

  /** JavaScript's `s.split(",")`. */
  function Split(s: string): (r: seq<string>)
    ensures |r| >= 1
  {
    if |s| == 0 then [""]
    else if s[0] == ',' then [""] + Split(s[1..])
    else
      var rest := Split(s[1..]);
      [[s[0]] + rest[0]] + rest[1..]
  }

  predicate NoComma(s: string) {
    forall i | 0 <= i < |s| :: s[i] != ','
  }

  lemma {:induction false} SplitAfterWord(a: string, t: string)
    requires NoComma(a)
    ensures Split(a + t) == [a + Split(t)[0]] + Split(t)[1..]
    decreases |a|
  {
    if |a| > 0 {
      assert (a + t)[0] == a[0] && (a + t)[1..] == a[1..] + t;
      SplitAfterWord(a[1..], t);
      var rest := Split(a[1..] + t);
      assert Split(a + t) == [[a[0]] + rest[0]] + rest[1..];
      assert rest[0] == a[1..] + Split(t)[0];
      assert [a[0]] + (a[1..] + Split(t)[0]) == a + Split(t)[0];
    } else {
      assert a + t == t;
      assert a + Split(t)[0] == Split(t)[0];
      assert Split(t) == [Split(t)[0]] + Split(t)[1..];
    }
  }

  /** Splitting a joined non-empty list of comma-free names on "," gives the
      list back: nothing added, nothing dropped. */
  lemma {:induction false} SplitJoin(names: seq<string>)
    requires |names| >= 1
    requires forall i | 0 <= i < |names| :: NoComma(names[i])
    ensures Split(Join(names)) == names
    decreases |names|
  {
    if |names| == 1 {
      SplitAfterWord(names[0], "");
      assert names[0] + "" == names[0];
    } else {
      var rest := "," + Join(names[1..]);
      assert Join(names) == names[0] + rest;
      SplitAfterWord(names[0], rest);
      assert rest[1..] == Join(names[1..]);
      SplitJoin(names[1..]);
      assert Split(rest) == [""] + names[1..];
      assert names[0] + "" == names[0];
      assert names == [names[0]] + names[1..];
    }
  }

  lemma NamesHaveNoComma(p: PitchClass)
    ensures NoComma(Name(p))
  {
    assert Name(p) in NoteNames;
  }

  /** The note list a scale row carries as text, and what the row assembly
      reads back from it. */
  function GroupConcat(s: set<PitchClass>, root: PitchClass): string {
    Join(NamesOf(RotatedFrom(s, root)))
  }

  lemma GroupConcatRoundTrip(s: set<PitchClass>, root: PitchClass)
    requires s != {}
    ensures Split(GroupConcat(s, root)) == NamesOf(RotatedFrom(s, root))
  {
    var ns := NamesOf(RotatedFrom(s, root));
    NamesOfFacts(RotatedFrom(s, root));
    RotatedFromFacts(s, root);
    var x :| x in s;
    assert x in RotatedFrom(s, root);
    forall i | 0 <= i < |ns| ensures NoComma(ns[i]) {
      NamesHaveNoComma(RotatedFrom(s, root)[i]);
    }
    SplitJoin(ns);
  }
}
