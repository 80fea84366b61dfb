/** Turning the rows a query found into the objects it returns: each chord is
    rebuilt from its symbol by the notation library, its notes relabelled and
    its category and triad base taken from the store; each scale is rebuilt
    from its root, name and note list, and tagged with its group. A chord that
    cannot be rebuilt fails the whole query; a scale that cannot be rebuilt
    fails getScales but is skipped by every other scale query. */
module Assembly {
  import opened Outcomes
  import opened Ordering
  import opened Alphabet
  import opened Corpus

  /** A note object of the notation library: its properties by name (a
      property holding `undefined` is taken to be absent). */
  type NoteObj = map<string, string>

  /** `const { name, ...rest } = note; return { label: name, ...rest }`: the
      `name` property becomes `label`; a `label` already among the other
      properties is spread after it and wins. */
  function Relabel(n: NoteObj): (r: NoteObj)
    ensures "name" !in r
    ensures "label" in r <==> "name" in n || "label" in n
    ensures "label" in n ==> r["label"] == n["label"]
    ensures "name" in n && "label" !in n ==> r["label"] == n["name"]
    ensures forall k | k != "name" && k != "label" :: (k in r <==> k in n) && (k in r ==> r[k] == n[k])
  {
    var rest := n - {"name"};
    if "name" in n then map["label" := n["name"]] + rest else rest
  }

  /** The inverse renaming, from `label` back to `name`. */
  function Unrelabel(m: NoteObj): NoteObj {
    var rest := m - {"label"};
    if "label" in m then map["name" := m["label"]] + rest else rest
  }

  /** Relabelling loses nothing when the library's note has no `label` of its own. */
  lemma RelabelRoundTrip(n: NoteObj)
    requires "label" !in n
    ensures Unrelabel(Relabel(n)) == n
  {
    var u := Unrelabel(Relabel(n));
    forall k ensures (k in u <==> k in n) && (k in u ==> u[k] == n[k]) {
      if k == "name" || k == "label" {
      } else {
        assert (k in Relabel(n) <==> k in n) && (k in Relabel(n) ==> Relabel(n)[k] == n[k]);
      }
    }
  }

  /** A chord object: its symbol, its note objects, its category and triad base. */
  datatype Chord = Chord(symbol: string, notes: seq<NoteObj>, category: Option<string>, triadBase: Option<string>)

  /** What `Scale.fromSimple` builds: a scale with its root, name and notes. */
  datatype ParsedScale = ParsedScale(root: string, name: string, notes: seq<string>)

  /** A scale object as the scale queries return it. */
  datatype Scale = Scale(parsed: ParsedScale, groupId: int, groupName: string, rootNote: NoteObj)

  /** The notation library's constructors; None is a rejected input (a throw). */
  datatype Parsers = Parsers(
    chordFromNotation: string -> Option<Chord>,
    scaleFromSimple: (string, string, seq<string>) -> Option<ParsedScale>,
    noteFromName: string -> Option<NoteObj>)

  /** One result chord: the library's chord with relabelled notes and the
      stored category and triad base in place of the library's. */
  function AssembleChord(row: ChordRow, parsed: Chord): (c: Chord)
    ensures c.symbol == parsed.symbol
    ensures c.category == row.category && c.triadBase == row.triadBase
    ensures |c.notes| == |parsed.notes|
    ensures forall i | 0 <= i < |c.notes| :: "name" !in c.notes[i]
    ensures forall i | 0 <= i < |c.notes| :: "label" !in parsed.notes[i] ==> Unrelabel(c.notes[i]) == parsed.notes[i]
  {
    var notes := Map(parsed.notes, Relabel);
    forall i | 0 <= i < |notes| && "label" !in parsed.notes[i]
      ensures Unrelabel(notes[i]) == parsed.notes[i]
    {
      RelabelRoundTrip(parsed.notes[i]);
    }
    parsed.(notes := notes, category := row.category, triadBase := row.triadBase)
  }

  predicate Rebuildable(row: ChordRow, p: Parsers) {
    p.chordFromNotation(row.symbol).Some?
  }

  /** The chords a chord query returns for its rows, or the failure of the
      first row the library rejects. */
  function ChordsFromRows(rows: seq<ChordRow>, p: Parsers): (r: Outcome<seq<Chord>>)
    ensures !r.Null?
    ensures r.Done? <==> forall i | 0 <= i < |rows| :: Rebuildable(rows[i], p)
    ensures r.Done? ==> |r.value| == |rows| && forall i | 0 <= i < |rows| ::
      r.value[i] == AssembleChord(rows[i], p.chordFromNotation(rows[i].symbol).value)
    ensures r.Thrown? ==> exists k | 0 <= k < |rows| ::
      && !Rebuildable(rows[k], p)
      && r.error == ReconstructionFailure(rows[k].symbol)
      && forall j | 0 <= j < k :: Rebuildable(rows[j], p)
    decreases |rows|
  {
    if |rows| == 0 then Done([])
    else
      var n := |rows| - 1;
      var front := ChordsFromRows(rows[..n], p);
      assert forall j | 0 <= j < n :: rows[..n][j] == rows[j];
      if front.Thrown? then
        Thrown(front.error)
      else if !Rebuildable(rows[n], p) then
        Thrown(ReconstructionFailure(rows[n].symbol))
      else
        Done(front.value + [AssembleChord(rows[n], p.chordFromNotation(rows[n].symbol).value)])
  }

  /** Once the rows before i are all rebuilt and row i is not, the query throws
      for row i. */
  lemma ChordsStopAt(rows: seq<ChordRow>, p: Parsers, i: nat)
    requires i < |rows|
    requires ChordsFromRows(rows[..i], p).Done?
    requires !Rebuildable(rows[i], p)
    ensures ChordsFromRows(rows, p) == Thrown(ReconstructionFailure(rows[i].symbol))
  {
    assert forall j | 0 <= j < i :: rows[..i][j] == rows[j];
    var r := ChordsFromRows(rows, p);
    var k :| 0 <= k < |rows| && !Rebuildable(rows[k], p) && r.error == ReconstructionFailure(rows[k].symbol)
      && forall j | 0 <= j < k :: Rebuildable(rows[j], p);
    assert k == i;
  }

  /** The chord queries' `qResults.forEach(... results.push(chord))`. */
  method AssembleChords(rows: seq<ChordRow>, p: Parsers) returns (r: Outcome<seq<Chord>>)
    ensures r == ChordsFromRows(rows, p)
  {
    var results: seq<Chord> := [];
    var i := 0;
    while i < |rows|
      invariant 0 <= i <= |rows|
      invariant ChordsFromRows(rows[..i], p) == Done(results)
    {
      var parsed := p.chordFromNotation(rows[i].symbol);
      if parsed.None? {
        ChordsStopAt(rows, p, i);
        return Thrown(ReconstructionFailure(rows[i].symbol));
      }
      results := results + [AssembleChord(rows[i], parsed.value)];
      assert rows[..i + 1][..i] == rows[..i];
      i := i + 1;
    }
    assert rows[..i] == rows;
    return Done(results);
  }

  /** `ele.notes.split(",")`; GroupConcatRoundTrip says what it yields for a
      hit as the store lists it. */
  function NoteList(h: ScaleHit): seq<string> {
    Split(h.notes)
  }

  /** One scale object: `Scale.fromSimple(root, name, notes)`, then its group
      and `Note.fromName(scale.root)`; None when the library rejects either. */
  function BuildScale(h: ScaleHit, p: Parsers): (r: Option<Scale>)
    ensures r.Some? <==> p.scaleFromSimple(Name(h.row.root), h.row.name, NoteList(h)).Some?
                         && p.noteFromName(p.scaleFromSimple(Name(h.row.root), h.row.name, NoteList(h)).value.root).Some?
    ensures r.Some? ==> && r.value.parsed == p.scaleFromSimple(Name(h.row.root), h.row.name, NoteList(h)).value
                        && r.value.groupId == h.row.groupId
                        && r.value.groupName == h.groupName
                        && Some(r.value.rootNote) == p.noteFromName(r.value.parsed.root)
  {
    match p.scaleFromSimple(Name(h.row.root), h.row.name, NoteList(h))
    case None => None
    case Some(parsed) =>
      match p.noteFromName(parsed.root)
      case None => None
      case Some(rootNote) => Some(Scale(parsed, h.row.groupId, h.groupName, rootNote))
  }

  /** The scales of getScales' loop, which rethrows the first rejection. */
  function ScalesOrThrow(hits: seq<ScaleHit>, p: Parsers): (r: Outcome<seq<Scale>>)
    ensures !r.Null?
    ensures r.Done? <==> forall i | 0 <= i < |hits| :: BuildScale(hits[i], p).Some?
    ensures r.Done? ==> |r.value| == |hits| && forall i | 0 <= i < |hits| :: Some(r.value[i]) == BuildScale(hits[i], p)
    ensures r.Thrown? ==> exists k | 0 <= k < |hits| ::
      && BuildScale(hits[k], p).None?
      && r.error == ReconstructionFailure(hits[k].row.name)
      && forall j | 0 <= j < k :: BuildScale(hits[j], p).Some?
    decreases |hits|
  {
    if |hits| == 0 then Done([])
    else
      var n := |hits| - 1;
      var front := ScalesOrThrow(hits[..n], p);
      assert forall j | 0 <= j < n :: hits[..n][j] == hits[j];
      var last := BuildScale(hits[n], p);
      if front.Thrown? then
        Thrown(front.error)
      else if last.None? then
        Thrown(ReconstructionFailure(hits[n].row.name))
      else
        var r := front.value + [last.value];
        assert forall i | 0 <= i < n :: r[i] == front.value[i];
        Done(r)
  }

  lemma ScalesStopAt(hits: seq<ScaleHit>, p: Parsers, i: nat)
    requires i < |hits|
    requires ScalesOrThrow(hits[..i], p).Done?
    requires BuildScale(hits[i], p).None?
    ensures ScalesOrThrow(hits, p) == Thrown(ReconstructionFailure(hits[i].row.name))
  {
    assert forall j | 0 <= j < i :: hits[..i][j] == hits[j];
    var r := ScalesOrThrow(hits, p);
    var k :| 0 <= k < |hits| && BuildScale(hits[k], p).None? && r.error == ReconstructionFailure(hits[k].row.name)
      && forall j | 0 <= j < k :: BuildScale(hits[j], p).Some?;
    assert k == i;
  }

  /** getScales' `qResults.forEach`, whose catch block rethrows. */
  method AssembleScalesRethrowing(hits: seq<ScaleHit>, p: Parsers) returns (r: Outcome<seq<Scale>>)
    ensures r == ScalesOrThrow(hits, p)
  {
    var results: seq<Scale> := [];
    var i := 0;
    while i < |hits|
      invariant 0 <= i <= |hits|
      invariant ScalesOrThrow(hits[..i], p) == Done(results)
    {
      var scale := BuildScale(hits[i], p);
      if scale.None? {
        ScalesStopAt(hits, p, i);
        return Thrown(ReconstructionFailure(hits[i].row.name));
      }
      results := results + [scale.value];
      assert hits[..i + 1][..i] == hits[..i];
      i := i + 1;
    }
    assert hits[..i] == hits;
    return Done(results);
  }

  /** The library's answer for each hit, in hit order. */
  function Attempts(hits: seq<ScaleHit>, p: Parsers): seq<Option<Scale>> {
    Map(hits, h => BuildScale(h, p))
  }

  /** The scales of the other scale queries' loops, whose empty catch block
      skips a rejected row. */
  function ScalesKeepingGood(hits: seq<ScaleHit>, p: Parsers): (r: seq<Scale>)
    ensures |r| <= |hits|
    decreases |hits|
  {
    if |hits| == 0 then []
    else
      var n := |hits| - 1;
      var front := ScalesKeepingGood(hits[..n], p);
      match BuildScale(hits[n], p)
      case None => front
      case Some(s) => front + [s]
  }

  /** A built scale as the library's answer. */
  function Built(s: Scale): Option<Scale> {
    Some(s)
  }

  /** Whether the library built a scale. */
  predicate Accepted(o: Option<Scale>) {
    o.Some?
  }

  /** The skipping policy returns the scales the library builds, in hit
      order, with the rejected hits left out. */
  lemma {:induction false} KeptInHitOrder(hits: seq<ScaleHit>, p: Parsers)
    ensures Map(ScalesKeepingGood(hits, p), Built) == Filter(Attempts(hits, p), Accepted)
    decreases |hits|
  {
    if |hits| > 0 {
      var n := |hits| - 1;
      var front := ScalesKeepingGood(hits[..n], p);
      var last := BuildScale(hits[n], p);
      KeptInHitOrder(hits[..n], p);
      AttemptsSnoc(hits, p);
      FilterConcat(Attempts(hits[..n], p), [last], Accepted);
      assert Filter(Attempts(hits, p), Accepted) == Map(front, Built) + Filter([last], Accepted);
      if last.Some? {
        assert Filter([last], Accepted) == [last];
        assert ScalesKeepingGood(hits, p) == front + [last.value];
        MapSnoc(front, last.value, Built);
      } else {
        assert Filter([last], Accepted) == [];
        assert ScalesKeepingGood(hits, p) == front;
      }
    }
  }

  /** The library's answers grow by one when one hit is added. */
  lemma AttemptsSnoc(hits: seq<ScaleHit>, p: Parsers)
    requires |hits| > 0
    ensures Attempts(hits, p) == Attempts(hits[..|hits| - 1], p) + [BuildScale(hits[|hits| - 1], p)]
  {
    var n := |hits| - 1;
    assert hits == hits[..n] + [hits[n]];
    MapSnoc(hits[..n], hits[n], h => BuildScale(h, p));
  }

  /** The skipping policy keeps exactly the scales that could be built. */
  lemma {:induction false} KeptScales(hits: seq<ScaleHit>, p: Parsers, s: Scale)
    ensures s in ScalesKeepingGood(hits, p) <==> exists h | h in hits :: BuildScale(h, p) == Some(s)
    decreases |hits|
  {
    if |hits| > 0 {
      var n := |hits| - 1;
      KeptScales(hits[..n], p, s);
      assert hits == hits[..n] + [hits[n]];
      if exists h | h in hits :: BuildScale(h, p) == Some(s) {
        var h :| h in hits && BuildScale(h, p) == Some(s);
        if h != hits[n] {
          assert h in hits[..n];
        }
      }
    }
  }

  /** The two failure policies agree whenever no row is rejected, and the
      rethrowing one fails exactly when the skipping one drops a row. */
  lemma {:induction false} PoliciesAgree(hits: seq<ScaleHit>, p: Parsers)
    ensures ScalesOrThrow(hits, p).Done? <==> |ScalesKeepingGood(hits, p)| == |hits|
    ensures ScalesOrThrow(hits, p).Done? ==> ScalesKeepingGood(hits, p) == ScalesOrThrow(hits, p).value
    decreases |hits|
  {
    if |hits| > 0 {
      var n := |hits| - 1;
      PoliciesAgree(hits[..n], p);
      var kept, thrown, last := ScalesKeepingGood(hits[..n], p), ScalesOrThrow(hits[..n], p), BuildScale(hits[n], p);
      assert ScalesKeepingGood(hits, p) == if last.Some? then kept + [last.value] else kept;
      assert ScalesOrThrow(hits, p) == if thrown.Thrown? then Thrown(thrown.error)
        else if last.None? then Thrown(ReconstructionFailure(hits[n].row.name))
        else Done(thrown.value + [last.value]);
    }
  }

  /** The other scale queries' `qResults.forEach`, whose catch block is empty. */
  method AssembleScalesDropping(hits: seq<ScaleHit>, p: Parsers) returns (r: seq<Scale>)
    ensures r == ScalesKeepingGood(hits, p)
  {
    r := [];
    var i := 0;
    while i < |hits|
      invariant 0 <= i <= |hits|
      invariant ScalesKeepingGood(hits[..i], p) == r
    {
      var scale := BuildScale(hits[i], p);
      if scale.Some? {
        r := r + [scale.value];
      }
      assert hits[..i + 1][..i] == hits[..i];
      i := i + 1;
    }
    assert hits[..i] == hits;
  }
}
