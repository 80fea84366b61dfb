/** The read-only store the queries run against (the chords, chord_has_note,
    scales, scale_has_note and scale_groups tables), the criteria a query's
    WHERE and HAVING clauses express, and the evaluation of those criteria:
    keep the matching rows, then order them by the query's ORDER BY key. */
module Corpus {
  import opened Outcomes
  import opened Ordering
  import opened Alphabet

  /** A chord with the notes chord_has_note lists for it. A symbol is taken to
      name one chord across all roots. */
  datatype ChordRow = ChordRow(symbol: string, root: PitchClass, category: Option<string>,
                               triadBase: Option<string>, notes: set<PitchClass>)

  /** A scale with the notes scale_has_note lists for it. */
  datatype ScaleRow = ScaleRow(name: string, root: PitchClass, groupId: int, notes: set<PitchClass>)

  /** The store: its rows in storage order, the scale groups by id, and
      whether a query can reach it at all. */
  datatype Store = Store(chords: seq<ChordRow>, scales: seq<ScaleRow>, groups: map<int, string>, reachable: bool)

  /** `root_note = ?`, `root_note != ?` or no condition. A None parameter is
      SQL NULL, which no comparison matches. */
  datatype RootClause = AnyRoot | RootIs(root: Option<string>) | RootIsNot(root: Option<string>)

  predicate RootMatches(c: RootClause, r: PitchClass) {
    match c
    case AnyRoot => true
    case RootIs(s) => s.Some? && Name(r) == s.value
    case RootIsNot(s) => s.Some? && Name(r) != s.value
  }

  /** `COUNT(*) = size AND COUNT(note IN base) = hits`, `COUNT(note) = size`,
      or no such condition. */
  datatype Overlap = AnyCount | SizeIs(count: int) | Counts(size: int, base: seq<string>, hits: int)

  predicate OverlapMatches(o: Overlap, notes: set<PitchClass>) {
    match o
    case AnyCount => true
    case SizeIs(count) => |notes| == count
    case Counts(size, base, hits) => |notes| == size && Hits(notes, base) == hits
  }

  /** What every chord and scale query may ask of a row: a root condition, a
      count/overlap condition and the optional limiter clause. */
  datatype Common = Common(root: RootClause, overlap: Overlap, limiter: Option<seq<string>>)

  predicate CommonMatches(c: Common, r: PitchClass, notes: set<PitchClass>) {
    && notes != {}
    && RootMatches(c.root, r)
    && OverlapMatches(c.overlap, notes)
    && (c.limiter.Some? ==> LimiterOk(notes, c.limiter.value))
  }

  /** A criterion whose SQL the store refuses: an empty list expands to `IN ()`,
      and a pivot read from an empty list is an undefined parameter. */
  predicate Malformed(c: Common) {
    (c.overlap.Counts? && |c.overlap.base| == 0) || c.limiter == Some([])
  }

  /** `category = ?` (NULL matches nothing), `category IN (...)`, or no condition. */
  datatype CategoryClause = AnyCategory | CategoryIs(category: Option<string>) | CategoryIn(allowed: set<string>)

  predicate CategoryMatches(c: CategoryClause, category: Option<string>) {
    match c
    case AnyCategory => true
    case CategoryIs(s) => s.Some? && category == s
    case CategoryIn(allowed) => category.Some? && category.value in allowed
  }

  /** The chord criteria; triadBase None means no `triad_base = ?` condition. */
  datatype ChordCriteria = ChordCriteria(common: Common, category: CategoryClause, triadBase: Option<string>)

  predicate ChordMatches(c: ChordCriteria, row: ChordRow) {
    && CommonMatches(c.common, row.root, row.notes)
    && CategoryMatches(c.category, row.category)
    && (c.triadBase.Some? ==> row.triadBase == c.triadBase)
  }

  /** The scale-name condition `full_name REGEXP CONCAT('\\b', ?)`. */
  datatype NameClause = AnyName | NameToken(token: Option<string>)

  /** A scale's `CONCAT(root_note, ' ', name)`. */
  function FullName(row: ScaleRow): string {
    Name(row.root) + " " + row.name
  }

  predicate IsWordChar(c: char) {
    ('a' <= c <= 'z') || ('A' <= c <= 'Z') || ('0' <= c <= '9') || c == '_'
  }

  /** The regular-expression word boundary `\b` before position i. */
  predicate BoundaryAt(s: string, i: nat)
    requires i <= |s|
  {
    (i > 0 && IsWordChar(s[i - 1])) != (i < |s| && IsWordChar(s[i]))
  }

  /** Letters compared without regard to ASCII case, as the store's collation does. */
  function Fold(c: char): char {
    if 'A' <= c <= 'Z' then (c as int + 32) as char else c
  }

  predicate FoldPrefix(token: string, s: string) {
    |token| <= |s| && forall i | 0 <= i < |token| :: Fold(token[i]) == Fold(s[i])
  }

  /** The token occurs at a word boundary at or after position i. */
  predicate TokenFrom(s: string, token: string, i: nat)
    requires i <= |s|
    decreases |s| - i
  {
    (BoundaryAt(s, i) && FoldPrefix(token, s[i..])) || (i < |s| && TokenFrom(s, token, i + 1))
  }

  predicate NameMatches(c: NameClause, row: ScaleRow) {
    match c
    case AnyName => true
    case NameToken(t) => t.Some? && TokenFrom(FullName(row), t.value, 0)
  }

  /** The scale criteria; group None means no `group_id = ?` condition. Only
      scales whose group exists take part (an inner join with scale_groups). */
  datatype ScaleCriteria = ScaleCriteria(common: Common, group: Option<int>, name: NameClause)

  predicate ScaleMatches(c: ScaleCriteria, groups: map<int, string>, row: ScaleRow) {
    && CommonMatches(c.common, row.root, row.notes)
    && row.groupId in groups
    && (c.group.Some? ==> row.groupId == c.group.value)
    && NameMatches(c.name, row)
  }

  /** The ORDER BY of a query: none (storage order), pivot bucket then chord
      symbol, or pivot bucket then root. */
  datatype Order = StorageOrder | PivotThenSymbol(pivot: string) | PivotThenRoot(rootPivot: Option<string>)

  /** `CASE WHEN root_note >= pivot THEN 1 ELSE 2 END`; a NULL pivot puts every
      row in the second bucket. */
  function Bucket(pivot: Option<string>, r: PitchClass): int {
    if pivot.Some? && StrLe(pivot.value, Name(r)) then 1 else 2
  }

  function ChordKey(o: Order, row: ChordRow): Key {
    match o
    case StorageOrder => Key(0, 0, "")
    case PivotThenSymbol(p) => Key(Bucket(Some(p), row.root), 0, row.symbol)
    case PivotThenRoot(p) => Key(Bucket(p, row.root), row.root, "")
  }

  function ScaleKey(o: Order, row: ScaleRow): Key {
    match o
    case StorageOrder => Key(0, 0, "")
    case PivotThenSymbol(p) => Key(Bucket(Some(p), row.root), 0, row.name)
    case PivotThenRoot(p) => Key(Bucket(p, row.root), row.root, "")
  }

  /** The chord rows a query returns, before assembly. */
  function SelectChords(store: Store, c: ChordCriteria, o: Order): (r: Outcome<seq<ChordRow>>)
    ensures !r.Thrown?
    ensures r.Null? <==> !store.reachable || Malformed(c.common)
    ensures r.Done? ==> forall row :: row in r.value <==> row in store.chords && ChordMatches(c, row)
    ensures r.Done? ==> SortedBy(r.value, row => ChordKey(o, row))
    ensures r.Done? && o == StorageOrder ==> r.value == Filter(store.chords, row => ChordMatches(c, row))
    ensures r.Done? ==> multiset(r.value) == multiset(Filter(store.chords, row => ChordMatches(c, row)))
  {
    if !store.reachable || Malformed(c.common) then Null
    else
      var kept := Filter(store.chords, row => ChordMatches(c, row));
      var sorted := SortBy(kept, row => ChordKey(o, row));
      assert forall row :: row in sorted <==> row in kept by {
        forall row ensures row in sorted <==> row in kept {
          SortByMembership(kept, row => ChordKey(o, row), row);
        }
      }
      if o == StorageOrder then Done(kept) else Done(sorted)
  }

  /** A scale row as a query returns it: with its group's name and its notes
      as GROUP_CONCAT lists them. */
  datatype ScaleHit = ScaleHit(row: ScaleRow, groupName: string, notes: string)

  function Hit(groups: map<int, string>, row: ScaleRow): ScaleHit {
    ScaleHit(row, if row.groupId in groups then groups[row.groupId] else "", GroupConcat(row.notes, row.root))
  }

  /** Each hit carries the row it was made from. */
  lemma HitRows(rows: seq<ScaleRow>, groups: map<int, string>)
    ensures Map(Map(rows, row => Hit(groups, row)), (h: ScaleHit) => h.row) == rows
  {
  }

  /** The scale rows a query returns, before assembly. */
  function SelectScales(store: Store, c: ScaleCriteria, o: Order): (r: Outcome<seq<ScaleHit>>)
    ensures !r.Thrown?
    ensures r.Null? <==> !store.reachable || Malformed(c.common)
    ensures r.Done? ==> forall h :: h in r.value <==>
      h.row in store.scales && ScaleMatches(c, store.groups, h.row) && h == Hit(store.groups, h.row)
    ensures r.Done? ==> SortedBy(r.value, (h: ScaleHit) => ScaleKey(o, h.row))
  {
    if !store.reachable || Malformed(c.common) then Null
    else
      var kept := Filter(store.scales, row => ScaleMatches(c, store.groups, row));
      SortedHits(kept, store.groups, o);
      Done(Map(SortBy(kept, row => ScaleKey(o, row)), row => Hit(store.groups, row)))
  }

  /** A scale query returns each matching row as often as it is stored. */
  lemma SelectedScaleRows(store: Store, c: ScaleCriteria, o: Order)
    requires SelectScales(store, c, o).Done?
    ensures multiset(Map(SelectScales(store, c, o).value, (h: ScaleHit) => h.row))
         == multiset(Filter(store.scales, row => ScaleMatches(c, store.groups, row)))
  {
    var kept := Filter(store.scales, row => ScaleMatches(c, store.groups, row));
    var sorted := SortBy(kept, row => ScaleKey(o, row));
    assert SelectScales(store, c, o).value == Map(sorted, row => Hit(store.groups, row));
    HitRows(sorted, store.groups);
  }

  /** Sorting rows and listing them as hits keeps exactly those rows, in order. */
  lemma SortedHits(rows: seq<ScaleRow>, groups: map<int, string>, o: Order)
    ensures forall h :: h in Map(SortBy(rows, row => ScaleKey(o, row)), row => Hit(groups, row)) <==>
      h.row in rows && h == Hit(groups, h.row)
    ensures SortedBy(Map(SortBy(rows, row => ScaleKey(o, row)), row => Hit(groups, row)), (h: ScaleHit) => ScaleKey(o, h.row))
  {
    var sorted := SortBy(rows, row => ScaleKey(o, row));
    forall h ensures h in Map(sorted, row => Hit(groups, row)) <==> h.row in rows && h == Hit(groups, h.row) {
      SortByMembership(rows, row => ScaleKey(o, row), h.row);
      HitMembership(sorted, groups, h);
    }
    HitsKeepOrder(sorted, groups, o);
  }

  /** Listing sorted rows as hits keeps them sorted. */
  lemma HitsKeepOrder(rows: seq<ScaleRow>, groups: map<int, string>, o: Order)
    requires SortedBy(rows, row => ScaleKey(o, row))
    ensures SortedBy(Map(rows, row => Hit(groups, row)), (h: ScaleHit) => ScaleKey(o, h.row))
  {
    var hits := Map(rows, row => Hit(groups, row));
    assert forall i | 0 <= i < |hits| :: hits[i].row == rows[i];
  }

  lemma HitMembership(rows: seq<ScaleRow>, groups: map<int, string>, h: ScaleHit)
    ensures h in Map(rows, row => Hit(groups, row)) <==> h.row in rows && h == Hit(groups, h.row)
  {
    var hits := Map(rows, row => Hit(groups, row));
    if h in hits {
      var i :| 0 <= i < |hits| && hits[i] == h;
      assert rows[i] in rows;
    }
    if h.row in rows && h == Hit(groups, h.row) {
      var i :| 0 <= i < |rows| && rows[i] == h.row;
      assert hits[i] == h;
    }
  }

  /** `root_note >= pivot` for a pivot that is itself a note name is the
      alphabet's own order. */
  lemma BucketOfNote(q: PitchClass, r: PitchClass)
    ensures Bucket(Some(Name(q)), r) == 1 <==> q <= r
    ensures Bucket(Some(Name(q)), r) == 2 <==> r < q
  {
    NameOrder(q, r);
  }

  /** Chords ordered on a note pivot: those rooted at or above the pivot come
      first, and within each part the symbols ascend. */
  lemma ChordSymbolOrder(rows: seq<ChordRow>, pivot: string)
    requires IsNoteName(pivot)
    requires SortedBy(rows, row => ChordKey(PivotThenSymbol(pivot), row))
    ensures var q := IndexOf(pivot); forall i, j | 0 <= i < j < |rows| ::
      || (rows[i].root >= q && rows[j].root < q)
      || ((rows[i].root >= q) == (rows[j].root >= q) && StrLe(rows[i].symbol, rows[j].symbol))
  {
    var q := IndexOf(pivot);
    forall i, j | 0 <= i < j < |rows|
      ensures || (rows[i].root >= q && rows[j].root < q)
              || ((rows[i].root >= q) == (rows[j].root >= q) && StrLe(rows[i].symbol, rows[j].symbol))
    {
      assert KeyLe(ChordKey(PivotThenSymbol(pivot), rows[i]), ChordKey(PivotThenSymbol(pivot), rows[j]));
      BucketOfNote(q, rows[i].root);
      BucketOfNote(q, rows[j].root);
    }
  }

  /** Chords ordered on a root pivot: those rooted at or above the pivot come
      first, and within each part the roots ascend, in name order too. */
  lemma ChordRootOrder(rows: seq<ChordRow>, pivot: string)
    requires IsNoteName(pivot)
    requires SortedBy(rows, row => ChordKey(PivotThenRoot(Some(pivot)), row))
    ensures var q := IndexOf(pivot); forall i, j | 0 <= i < j < |rows| ::
      || (rows[i].root >= q && rows[j].root < q)
      || ((rows[i].root >= q) == (rows[j].root >= q) && StrLe(Name(rows[i].root), Name(rows[j].root)))
  {
    var q := IndexOf(pivot);
    forall i, j | 0 <= i < j < |rows|
      ensures || (rows[i].root >= q && rows[j].root < q)
              || ((rows[i].root >= q) == (rows[j].root >= q) && StrLe(Name(rows[i].root), Name(rows[j].root)))
    {
      assert KeyLe(ChordKey(PivotThenRoot(Some(pivot)), rows[i]), ChordKey(PivotThenRoot(Some(pivot)), rows[j]));
      BucketOfNote(q, rows[i].root);
      BucketOfNote(q, rows[j].root);
      NameOrder(rows[i].root, rows[j].root);
    }
  }

  /** Scales ordered on a root pivot, likewise. */
  lemma ScaleRootOrder(hits: seq<ScaleHit>, pivot: string)
    requires IsNoteName(pivot)
    requires SortedBy(hits, (h: ScaleHit) => ScaleKey(PivotThenRoot(Some(pivot)), h.row))
    ensures var q := IndexOf(pivot); forall i, j | 0 <= i < j < |hits| ::
      || (hits[i].row.root >= q && hits[j].row.root < q)
      || ((hits[i].row.root >= q) == (hits[j].row.root >= q) && StrLe(Name(hits[i].row.root), Name(hits[j].row.root)))
  {
    var q := IndexOf(pivot);
    forall i, j | 0 <= i < j < |hits|
      ensures || (hits[i].row.root >= q && hits[j].row.root < q)
              || ((hits[i].row.root >= q) == (hits[j].row.root >= q) && StrLe(Name(hits[i].row.root), Name(hits[j].row.root)))
    {
      assert KeyLe(ScaleKey(PivotThenRoot(Some(pivot)), hits[i].row), ScaleKey(PivotThenRoot(Some(pivot)), hits[j].row));
      BucketOfNote(q, hits[i].row.root);
      BucketOfNote(q, hits[j].row.root);
      NameOrder(hits[i].row.root, hits[j].row.root);
    }
  }

  /** With no pivot, scales come in plain ascending root order. */
  lemma ScalePlainRootOrder(hits: seq<ScaleHit>)
    requires SortedBy(hits, (h: ScaleHit) => ScaleKey(PivotThenRoot(None), h.row))
    ensures forall i, j | 0 <= i < j < |hits| :: StrLe(Name(hits[i].row.root), Name(hits[j].row.root))
  {
    forall i, j | 0 <= i < j < |hits|
      ensures StrLe(Name(hits[i].row.root), Name(hits[j].row.root))
    {
      assert KeyLe(ScaleKey(PivotThenRoot(None), hits[i].row), ScaleKey(PivotThenRoot(None), hits[j].row));
      NameOrder(hits[i].row.root, hits[j].row.root);
    }
  }
}
