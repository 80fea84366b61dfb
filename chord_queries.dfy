/** The chord queries of database.js: getChords, getChordCategoryAndTriadBase,
    getChordExtensions, getChordAlterations, getChordAppendments,
    getChordDeductions and getChordRotations. Each is the chain of checks its
    code runs before the store is asked, the rows the store returns for its
    WHERE/HAVING/ORDER BY clauses, and the loop that turns those rows into
    chord objects. */
module ChordQueries {
  import opened Outcomes
  import opened Ordering
  import opened Alphabet
  import opened Validation
  import opened Corpus
  import opened Shapes
  import opened Assembly

  /** A query's rows rebuilt into chord objects; a failure before the store
      answered is passed on unchanged. */
  function Rebuilt(rows: Outcome<seq<ChordRow>>, p: Parsers): (r: Outcome<seq<Chord>>)
    ensures rows.Null? ==> r.Null?
    ensures rows.Thrown? ==> r == Thrown(rows.error)
    ensures r.Done? ==> rows.Done? && |r.value| == |rows.value|
    ensures r.Done? ==> forall i | 0 <= i < |r.value| ::
      r.value[i].category == rows.value[i].category && r.value[i].triadBase == rows.value[i].triadBase
  {
    var found :- rows;
    ChordsFromRows(found, p)
  }

  /** Runs a chord query's assembly loop once its rows are known. */
  method RunChordQuery(rows: Outcome<seq<ChordRow>>, p: Parsers) returns (r: Outcome<seq<Chord>>)
    ensures r == Rebuilt(rows, p)
  {
    if rows.Done? {
      r := AssembleChords(rows.value, p);
    } else {
      r := rows.PropagateFailure();
    }
  }

  // ---------------------------------------------------------------- getChords

  /** getChords' rows: the chords at the given root under the given category
      that pass the limiter, in storage order. */
  function ChordRows(store: Store, limiter: LookupArg, root: Option<string>, category: Option<string>): (r: Outcome<seq<ChordRow>>)
    ensures RootVerdict(root).Thrown? ==> r == Thrown(RootVerdict(root).error)
    ensures RootVerdict(root).Done? && LimiterList(limiter).Thrown? ==> r == Thrown(LimiterList(limiter).error)
    ensures r.Null? <==> RootVerdict(root).Done? && LimiterList(limiter).Done?
                         && (!store.reachable || LimiterList(limiter).value == Some([]))
    ensures r.Done? ==> forall row :: row in r.value <==>
      && row in store.chords
      && row.notes != {}
      && root == Some(Name(row.root))
      && category.Some? && row.category == category
      && LimiterAccepts(limiter, row.notes)
  {
    var rootOk :- RootVerdict(root);
    // validateCategoryInput runs here; it never throws (CategoryVerdict).
    assert CategoryVerdict(category).Done?;
    var lim :- LimiterList(limiter);
    SelectChords(store, ChordCriteria(Common(RootIs(root), AnyCount, lim), CategoryIs(category), None), StorageOrder)
  }

  /** Every chord getChords returns carries the category asked for, whatever
      the notation library would have called it. */
  lemma ChordsKeepRequestedCategory(store: Store, p: Parsers, limiter: LookupArg, root: Option<string>, category: Option<string>)
    requires Rebuilt(ChordRows(store, limiter, root, category), p).Done?
    ensures forall c | c in Rebuilt(ChordRows(store, limiter, root, category), p).value :: c.category == category
  {
    var rows := ChordRows(store, limiter, root, category).value;
    var chords := Rebuilt(ChordRows(store, limiter, root, category), p).value;
    forall c | c in chords ensures c.category == category {
      var i :| 0 <= i < |chords| && chords[i] == c;
      assert rows[i] in rows;
    }
  }

  method GetChords(store: Store, p: Parsers, limiter: LookupArg, root: Option<string>, category: Option<string>)
    returns (r: Outcome<seq<Chord>>)
    ensures r == Rebuilt(ChordRows(store, limiter, root, category), p)
  {
    r := RunChordQuery(ChordRows(store, limiter, root, category), p);
  }

  // --------------------------------------------- getChordCategoryAndTriadBase

  datatype CategoryAndTriadBase = CategoryAndTriadBase(category: string, triadBase: Option<string>)

  /** `{category: ele.category || "Crafted", triadBase: ele.triad_base || null}`. */
  function Describe(row: ChordRow): CategoryAndTriadBase {
    CategoryAndTriadBase(
      if row.category.Some? && row.category.value != "" then row.category.value else "Crafted",
      if row.triadBase.Some? && row.triadBase.value != "" then row.triadBase else None)
  }

  /** A chord at the given root with exactly as many notes as listed, all of them listed. */
  predicate SpelledBy(rootStr: Option<string>, noteStrs: seq<string>, row: ChordRow) {
    && row.notes != {}
    && rootStr == Some(Name(row.root))
    && |row.notes| == |noteStrs|
    && Hits(row.notes, noteStrs) == |noteStrs|
  }

  function SpelledCriteria(rootStr: Option<string>, noteStrs: seq<string>): ChordCriteria {
    ChordCriteria(Common(RootIs(rootStr), Counts(|noteStrs|, noteStrs, |noteStrs|), None), AnyCategory, None)
  }

  /** getChordCategoryAndTriadBase: the category and triad base of the first
      stored chord the root and notes spell, or "Crafted" and null when none does. */
  function GetChordCategoryAndTriadBase(store: Store, rootStr: Option<string>, noteStrs: seq<string>): (r: Outcome<CategoryAndTriadBase>)
    ensures !r.Thrown?
    ensures r.Null? <==> !store.reachable || noteStrs == []
    ensures r.Done? && (forall row | row in store.chords :: !SpelledBy(rootStr, noteStrs, row)) ==>
      r.value == CategoryAndTriadBase("Crafted", None)
    ensures r.Done? && (exists row | row in store.chords :: SpelledBy(rootStr, noteStrs, row)) ==>
      exists i | 0 <= i < |store.chords| ::
        && SpelledBy(rootStr, noteStrs, store.chords[i])
        && (forall j | 0 <= j < i :: !SpelledBy(rootStr, noteStrs, store.chords[j]))
        && r.value == Describe(store.chords[i])
  {
    var c := SpelledCriteria(rootStr, noteStrs);
    var rows :- SelectChords(store, c, StorageOrder);
    assert forall row :: ChordMatches(c, row) <==> SpelledBy(rootStr, noteStrs, row);
    if |rows| == 0 then
      Done(CategoryAndTriadBase("Crafted", None))
    else
      assert rows[0] in rows;
      FilterFirst(store.chords, row => ChordMatches(c, row));
      Done(Describe(rows[0]))
  }

  /** For a plain note list, the chord found is the one with exactly those notes. */
  lemma SpelledMeansSameNotes(rootStr: Option<string>, noteStrs: seq<string>, row: ChordRow)
    requires PlainNoteList(noteStrs) && noteStrs != []
    ensures SpelledBy(rootStr, noteStrs, row) <==> rootStr == Some(Name(row.root)) && row.notes == NamedSet(noteStrs)
  {
    SameSet(row.notes, noteStrs);
    NamedSetSize(noteStrs);
  }

  // ------------------------------------------------------- getChordExtensions

  /** A truthy category or triad base: present and not the empty string. */
  predicate Present(s: Option<string>) {
    s.Some? && s.value != ""
  }

  function ExtensionCriteria(root: Option<string>, category: string, b: seq<string>,
                             lim: Option<seq<string>>, triadBase: Option<string>): ChordCriteria {
    ChordCriteria(Common(RootIs(root), Counts(|b| + 1, b, |b|), lim),
                  CategoryIn(ExtensionCategories(category)),
                  if Present(triadBase) then triadBase else None)
  }

  /** getChordExtensions' rows: the chords at the root, one step up the
      category ladder, holding the base and one more note. */
  function ExtensionRows(store: Store, base: LookupArg, root: Option<string>, category: Option<string>,
                         limiter: LookupArg, triadBase: Option<string>): (r: Outcome<seq<ChordRow>>)
    ensures RootVerdict(root).Thrown? ==> r == Thrown(RootVerdict(root).error)
    ensures RootVerdict(root).Done? && FormatLookupInput(base).Thrown? ==> r == Thrown(InvalidNotesInput)
    ensures RootVerdict(root).Done? && FormatLookupInput(base).Done? && !Present(category) ==> r == Thrown(MissingCategory)
    ensures (RootVerdict(root).Done? && FormatLookupInput(base).Done? && Present(category)
             && FormatLookupInput(base).value.Text?) ==> r == Thrown(NotAList)
    ensures r.Done? ==> Present(category) && LookupList(base).Done?
    ensures r.Null? <==> RootVerdict(root).Done? && Present(category) && LookupList(base).Done? && LimiterList(limiter).Done?
                         && (!store.reachable || LookupNames(base) == [] || LimiterList(limiter).value == Some([]))
    ensures r.Done? ==> forall row :: row in r.value <==>
      && row in store.chords
      && row.notes != {}
      && root == Some(Name(row.root))
      && row.category.Some? && row.category.value in ExtensionCategories(category.value)
      && (Present(triadBase) ==> row.triadBase == triadBase)
      && |row.notes| == |LookupNames(base)| + 1
      && Hits(row.notes, LookupNames(base)) == |LookupNames(base)|
      && LimiterAccepts(limiter, row.notes)
  {
    var rootOk :- RootVerdict(root);
    // validateCategoryInput runs here; it never throws (CategoryVerdict).
    assert CategoryVerdict(category).Done?;
    var formatted :- FormatLookupInput(base);
    if !Present(category) then Thrown(MissingCategory)
    else if formatted.Text? then Thrown(NotAList)
    else
      var lim :- LimiterList(limiter);
      ExtensionSelect(store, root, category.value, formatted.names, lim, triadBase)
  }

  function ExtensionSelect(store: Store, root: Option<string>, category: string, b: seq<string>,
                           lim: Option<seq<string>>, triadBase: Option<string>): (r: Outcome<seq<ChordRow>>)
    ensures !r.Thrown?
    ensures r.Null? <==> !store.reachable || b == [] || lim == Some([])
    ensures r.Done? ==> forall row :: row in r.value <==>
      && row in store.chords
      && row.notes != {}
      && root == Some(Name(row.root))
      && row.category.Some? && row.category.value in ExtensionCategories(category)
      && (Present(triadBase) ==> row.triadBase == triadBase)
      && |row.notes| == |b| + 1
      && Hits(row.notes, b) == |b|
      && (lim.Some? ==> LimiterOk(row.notes, lim.value))
  {
    SelectChords(store, ExtensionCriteria(root, category, b, lim, triadBase), StorageOrder)
  }

  /** For a plain base list, every extension is the base chord plus one note,
      at the same root, in a category one step up the ladder. */
  lemma ExtensionsAddOneNote(store: Store, base: LookupArg, root: Option<string>, category: Option<string>,
                             limiter: LookupArg, triadBase: Option<string>)
    requires ExtensionRows(store, base, root, category, limiter, triadBase).Done?
    requires PlainNoteList(LookupNames(base))
    ensures forall row | row in ExtensionRows(store, base, root, category, limiter, triadBase).value ::
      && NamedSet(LookupNames(base)) < row.notes
      && |row.notes - NamedSet(LookupNames(base))| == 1
      && root == Some(Name(row.root))
      && (IsKnownCategory(row.category.value) ==> Height(row.category.value) == Height(category.value) + 1)
  {
    forall row | row in ExtensionRows(store, base, root, category, limiter, triadBase).value
      ensures NamedSet(LookupNames(base)) < row.notes && |row.notes - NamedSet(LookupNames(base))| == 1
    {
      OneAdded(row.notes, LookupNames(base));
    }
  }

  /** A Thirteen chord, a Six chord or an unlisted category has no extension
      among chords stored under the six categories. */
  lemma TopOfLadderHasNoExtensions(store: Store, base: LookupArg, root: Option<string>, category: Option<string>,
                                   limiter: LookupArg, triadBase: Option<string>)
    requires ExtensionRows(store, base, root, category, limiter, triadBase).Done?
    requires category.value == "Thirteen" || category.value == "Six" || !IsKnownCategory(category.value)
    requires forall row | row in store.chords && row.category.Some? :: IsKnownCategory(row.category.value)
    ensures forall row :: row !in ExtensionRows(store, base, root, category, limiter, triadBase).value
  {
  }

  method GetChordExtensions(store: Store, p: Parsers, base: LookupArg, root: Option<string>, category: Option<string>,
                            limiter: LookupArg, triadBase: Option<string>) returns (r: Outcome<seq<Chord>>)
    ensures r == Rebuilt(ExtensionRows(store, base, root, category, limiter, triadBase), p)
  {
    r := RunChordQuery(ExtensionRows(store, base, root, category, limiter, triadBase), p);
  }

  // ----------------------------------- getChordAlterations / Appendments / Deductions

  /** The rows of a query that compares every stored chord with a base list b
      of n notes: `COUNT(*) = n + sizeShift AND COUNT(note IN b) = n + hitShift`,
      ordered by whether the root is at or above b[0], then by symbol. */
  function NearbyChordRows(store: Store, base: LookupArg, limiter: LookupArg, sizeShift: int, hitShift: int): (r: Outcome<seq<ChordRow>>)
    ensures LookupList(base).Thrown? ==> r == Thrown(LookupList(base).error)
    ensures LookupList(base).Done? && LimiterList(limiter).Thrown? ==> r == Thrown(LimiterList(limiter).error)
    ensures r.Null? <==> LookupList(base).Done? && LimiterList(limiter).Done?
                         && (!store.reachable || LookupNames(base) == [] || LimiterList(limiter).value == Some([]))
    ensures r.Done? ==> LookupList(base).Done? && LookupNames(base) != []
    ensures r.Done? ==> forall row :: row in r.value <==>
      && row in store.chords
      && row.notes != {}
      && |row.notes| == |LookupNames(base)| + sizeShift
      && Hits(row.notes, LookupNames(base)) == |LookupNames(base)| + hitShift
      && LimiterAccepts(limiter, row.notes)
    ensures r.Done? ==> SortedBy(r.value, row => ChordKey(PivotThenSymbol(LookupNames(base)[0]), row))
  {
    var b :- LookupList(base);
    var lim :- LimiterList(limiter);
    NearbyChordSelect(store, b, lim, sizeShift, hitShift)
  }

  function NearbyChordSelect(store: Store, b: seq<string>, lim: Option<seq<string>>, sizeShift: int, hitShift: int): (r: Outcome<seq<ChordRow>>)
    ensures !r.Thrown?
    ensures r.Null? <==> !store.reachable || b == [] || lim == Some([])
    ensures r.Done? ==> forall row :: row in r.value <==>
      && row in store.chords
      && row.notes != {}
      && |row.notes| == |b| + sizeShift
      && Hits(row.notes, b) == |b| + hitShift
      && (lim.Some? ==> LimiterOk(row.notes, lim.value))
    ensures r.Done? ==> b != [] && SortedBy(r.value, row => ChordKey(PivotThenSymbol(b[0]), row))
  {
    var c := ChordCriteria(Common(AnyRoot, Counts(|b| + sizeShift, b, |b| + hitShift), lim), AnyCategory, None);
    if b == [] then SelectChords(store, c, StorageOrder)
    else SelectChords(store, c, PivotThenSymbol(b[0]))
  }

  /** getChordAlterations' rows: as many notes as the base, all but one of them from it. */
  function AlterationRows(store: Store, base: LookupArg, limiter: LookupArg): (r: Outcome<seq<ChordRow>>)
    ensures r.Done? ==> forall row :: row in r.value <==>
      && row in store.chords && row.notes != {}
      && |row.notes| == |LookupNames(base)| && Hits(row.notes, LookupNames(base)) == |LookupNames(base)| - 1
      && LimiterAccepts(limiter, row.notes)
  {
    NearbyChordRows(store, base, limiter, 0, -1)
  }

  /** getChordAppendments' rows: one note more than the base, all base notes among them. */
  function AppendmentRows(store: Store, base: LookupArg, limiter: LookupArg): (r: Outcome<seq<ChordRow>>)
    ensures r.Done? ==> forall row :: row in r.value <==>
      && row in store.chords && row.notes != {}
      && |row.notes| == |LookupNames(base)| + 1 && Hits(row.notes, LookupNames(base)) == |LookupNames(base)|
      && LimiterAccepts(limiter, row.notes)
  {
    NearbyChordRows(store, base, limiter, 1, 0)
  }

  /** getChordDeductions' rows: one note fewer than the base, all drawn from it. */
  function DeductionRows(store: Store, base: LookupArg, limiter: LookupArg): (r: Outcome<seq<ChordRow>>)
    ensures r.Done? ==> forall row :: row in r.value <==>
      && row in store.chords && row.notes != {}
      && |row.notes| == |LookupNames(base)| - 1 && Hits(row.notes, LookupNames(base)) == |LookupNames(base)| - 1
      && LimiterAccepts(limiter, row.notes)
  {
    NearbyChordRows(store, base, limiter, -1, -1)
  }

  /** For a plain base list: an alteration swaps exactly one note, so it is
      never the base chord; an appendment adds exactly one; a deduction drops
      exactly one. Each holds both ways: every stored chord of that shape that
      passes the limiter is returned. */
  lemma NearbyChordShapes(store: Store, base: LookupArg, limiter: LookupArg, row: ChordRow)
    requires PlainNoteList(LookupNames(base))
    ensures AlterationRows(store, base, limiter).Done? ==>
      (row in AlterationRows(store, base, limiter).value <==>
        && row in store.chords && row.notes != {} && LimiterAccepts(limiter, row.notes)
        && |row.notes - NamedSet(LookupNames(base))| == 1 && |NamedSet(LookupNames(base)) - row.notes| == 1)
    ensures AlterationRows(store, base, limiter).Done? && row in AlterationRows(store, base, limiter).value ==>
      row.notes != NamedSet(LookupNames(base))
    ensures AppendmentRows(store, base, limiter).Done? ==>
      (row in AppendmentRows(store, base, limiter).value <==>
        && row in store.chords && row.notes != {} && LimiterAccepts(limiter, row.notes)
        && NamedSet(LookupNames(base)) < row.notes && |row.notes - NamedSet(LookupNames(base))| == 1)
    ensures DeductionRows(store, base, limiter).Done? ==>
      (row in DeductionRows(store, base, limiter).value <==>
        && row in store.chords && row.notes != {} && LimiterAccepts(limiter, row.notes)
        && row.notes < NamedSet(LookupNames(base)) && |NamedSet(LookupNames(base)) - row.notes| == 1)
  {
    OneSwapped(row.notes, LookupNames(base));
    OneAdded(row.notes, LookupNames(base));
    OneRemoved(row.notes, LookupNames(base));
  }

  /** The results come rooted at or above the base's first note first, each
      part in symbol order. */
  lemma NearbyChordOrder(store: Store, base: LookupArg, limiter: LookupArg, sizeShift: int, hitShift: int)
    requires NearbyChordRows(store, base, limiter, sizeShift, hitShift).Done?
    ensures var rows, q := NearbyChordRows(store, base, limiter, sizeShift, hitShift).value, IndexOf(LookupNames(base)[0]);
      forall i, j | 0 <= i < j < |rows| ::
        || (rows[i].root >= q && rows[j].root < q)
        || ((rows[i].root >= q) == (rows[j].root >= q) && StrLe(rows[i].symbol, rows[j].symbol))
  {
    ChordSymbolOrder(NearbyChordRows(store, base, limiter, sizeShift, hitShift).value, LookupNames(base)[0]);
  }

  method GetChordAlterations(store: Store, p: Parsers, base: LookupArg, limiter: LookupArg) returns (r: Outcome<seq<Chord>>)
    ensures r == Rebuilt(AlterationRows(store, base, limiter), p)
  {
    r := RunChordQuery(AlterationRows(store, base, limiter), p);
  }

  method GetChordAppendments(store: Store, p: Parsers, base: LookupArg, limiter: LookupArg) returns (r: Outcome<seq<Chord>>)
    ensures r == Rebuilt(AppendmentRows(store, base, limiter), p)
  {
    r := RunChordQuery(AppendmentRows(store, base, limiter), p);
  }

  method GetChordDeductions(store: Store, p: Parsers, base: LookupArg, limiter: LookupArg) returns (r: Outcome<seq<Chord>>)
    ensures r == Rebuilt(DeductionRows(store, base, limiter), p)
  {
    r := RunChordQuery(DeductionRows(store, base, limiter), p);
  }

  // -------------------------------------------------------- getChordRotations

  /** getChordRotations' rows. The count and note parameters are read from the
      raw baseChord argument: for a chord object the spread throws inside the
      try block, so the query answers null. */
  function RotationRows(store: Store, root: Option<string>, base: LookupArg): (r: Outcome<seq<ChordRow>>)
    ensures RootVerdict(root).Thrown? ==> r == Thrown(RootVerdict(root).error)
    ensures RootVerdict(root).Done? && LookupList(base).Thrown? ==> r == Thrown(LookupList(base).error)
    ensures r.Null? <==> RootVerdict(root).Done? && LookupList(base).Done?
                         && (!store.reachable || base.Object? || LookupNames(base) == [])
    ensures r.Done? ==> base.Raw? && forall row :: row in r.value <==>
      && row in store.chords
      && row.notes != {}
      && root.Some? && Name(row.root) != root.value
      && |row.notes| == |LookupNames(base)|
      && Hits(row.notes, LookupNames(base)) == |LookupNames(base)|
    ensures r.Done? ==> SortedBy(r.value, row => ChordKey(PivotThenRoot(root), row))
  {
    var rootOk :- RootVerdict(root);
    var b :- LookupList(base);
    if base.Object? then Null
    else RotationSelect(store, root, b)
  }

  function RotationSelect(store: Store, root: Option<string>, b: seq<string>): (r: Outcome<seq<ChordRow>>)
    ensures !r.Thrown?
    ensures r.Null? <==> !store.reachable || b == []
    ensures r.Done? ==> forall row :: row in r.value <==>
      && row in store.chords
      && row.notes != {}
      && root.Some? && Name(row.root) != root.value
      && |row.notes| == |b|
      && Hits(row.notes, b) == |b|
    ensures r.Done? ==> SortedBy(r.value, row => ChordKey(PivotThenRoot(root), row))
  {
    SelectChords(store, ChordCriteria(Common(RootIsNot(root), Counts(|b|, b, |b|), None), AnyCategory, None), PivotThenRoot(root))
  }

  /** For a plain list, the rotations are exactly the stored chords with the
      same notes on another root, those rooted at or above the given root
      first, each part in ascending root order. */
  lemma RotationsShareNotes(store: Store, root: Option<string>, base: LookupArg, row: ChordRow)
    requires RotationRows(store, root, base).Done?
    requires PlainNoteList(LookupNames(base))
    ensures row in RotationRows(store, root, base).value <==>
      row in store.chords && root.Some? && Name(row.root) != root.value && row.notes == NamedSet(LookupNames(base))
    ensures root.Some? ==> var rows, q := RotationRows(store, root, base).value, IndexOf(root.value);
      forall i, j | 0 <= i < j < |rows| ::
        || (rows[i].root >= q && rows[j].root < q)
        || ((rows[i].root >= q) == (rows[j].root >= q) && StrLe(Name(rows[i].root), Name(rows[j].root)))
  {
    SameSet(row.notes, LookupNames(base));
    NamedSetSize(LookupNames(base));
    if root.Some? {
      ChordRootOrder(RotationRows(store, root, base).value, root.value);
    }
  }

  method GetChordRotations(store: Store, p: Parsers, root: Option<string>, base: LookupArg) returns (r: Outcome<seq<Chord>>)
    ensures r == Rebuilt(RotationRows(store, root, base), p)
  {
    r := RunChordQuery(RotationRows(store, root, base), p);
  }
}
