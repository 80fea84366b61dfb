/** The input checks of database.js: note names (validateNotesInput),
    note-list inputs (formatLookupInput), scale modes, chord categories and
    group ids. */
module Validation {
  import opened Outcomes
  import opened Alphabet

  /** The JavaScript values validateNotesInput is given: null (or undefined),
      one note string, or an array of note strings. */
  datatype NotesValue = NullValue | One(name: string) | Many(names: seq<string>)

  /** What formatLookupInput is given: a plain value, or a chord or scale object
      whose `notes` array holds note objects, listed here by their `name`. */
  datatype LookupArg = Raw(value: NotesValue) | Object(noteNames: seq<string>)

  /** What formatLookupInput returns: the list of names, or, when it was given a
      single note string, that string itself. */
  datatype Formatted = List(names: seq<string>) | Text(name: string)

  /** JavaScript truthiness of a note-list argument (`if (scaleToLimitBy)`):
      null, undefined and the empty string are falsy; arrays and objects,
      even empty ones, are truthy. */
  predicate Truthy(arg: LookupArg) {
    arg != Raw(NullValue) && arg != Raw(One(""))
  }

  /** The list validateNotesInput walks: a single value is wrapped in a list. */
  function Listed(v: NotesValue): seq<string> {
    match v
    case NullValue => []
    case One(n) => [n]
    case Many(ns) => ns
  }

  /** validateNotesInput's verdict on a list: it succeeds iff every entry is
      one of the twelve names, and otherwise throws for the first offender. */
  function CheckNames(names: seq<string>): (r: Outcome<()>)
    ensures !r.Null?
    ensures r.Done? ==> r == Done(())
    ensures r.Done? <==> forall i | 0 <= i < |names| :: IsNoteName(names[i])
    ensures r.Thrown? ==> exists k | 0 <= k < |names| ::
      && !IsNoteName(names[k])
      && r.error == InvalidNote(names[k])
      && forall j | 0 <= j < k :: IsNoteName(names[j])
  {
    if |names| == 0 then Done(())
    else if !IsNoteName(names[0]) then Thrown(InvalidNote(names[0]))
    else
      var r := CheckNames(names[1..]);
      assert forall i | 0 < i < |names| :: names[i] == names[1..][i - 1];
      assert r.Thrown? ==> exists k | 0 <= k < |names| ::
        && !IsNoteName(names[k])
        && r.error == InvalidNote(names[k])
        && forall j | 0 <= j < k :: IsNoteName(names[j]) by {
        if r.Thrown? {
          var k :| 0 <= k < |names[1..]| && !IsNoteName(names[1..][k]) && r.error == InvalidNote(names[1..][k])
            && forall j | 0 <= j < k :: IsNoteName(names[1..][j]);
          assert forall j | 0 <= j < k + 1 :: IsNoteName(names[j]) by {
            forall j | 0 <= j < k + 1 ensures IsNoteName(names[j]) {
              if j > 0 { assert names[j] == names[1..][j - 1]; }
            }
          }
        }
      }
      r
  }

  /** validateNotesInput: null passes; anything else is checked entry by entry. */
  function NotesVerdict(v: NotesValue): (r: Outcome<()>)
    ensures !r.Null?
    ensures v.NullValue? ==> r.Done?
    ensures r.Done? ==> r == Done(())
    ensures r.Done? <==> forall i | 0 <= i < |Listed(v)| :: IsNoteName(Listed(v)[i])
  {
    if v.NullValue? then Done(()) else CheckNames(Listed(v))
  }

  /** validateNotesInput's forEach loop, which throws at the first name that is
      not one of the twelve. */
  method ValidateNotesInput(v: NotesValue) returns (r: Outcome<()>)
    ensures r == NotesVerdict(v)
  {
    if v.NullValue? {
      return Done(());
    }
    var notes := Listed(v);
    var i := 0;
    while i < |notes|
      invariant 0 <= i <= |notes|
      invariant CheckNames(notes[i..]) == CheckNames(notes)
    {
      if notes[i] !in NoteNames {
        assert notes[i..][0] == notes[i];
        return Thrown(InvalidNote(notes[i]));
      }
      assert notes[i..][1..] == notes[i + 1..];
      i := i + 1;
    }
    assert notes[i..] == [];
    return Done(());
  }

  /** The root argument of a query is null or one note string. */
  function RootVerdict(root: Option<string>): (r: Outcome<()>)
    ensures r.Done? <==> root.None? || IsNoteName(root.value)
    ensures r.Thrown? ==> r == Thrown(InvalidNote(root.value))
    ensures !r.Null?
  {
    match root
    case None => NotesVerdict(NullValue)
    case Some(n) => NotesVerdict(One(n))
  }

  /** The names formatLookupInput validates: an object's note names, or the value itself. */
  function LookupNames(arg: LookupArg): seq<string> {
    match arg
    case Raw(v) => Listed(v)
    case Object(ns) => ns
  }

  /** formatLookupInput: maps an object's notes to their names (or keeps a plain
      value), validates them, and turns every failure, including reading
      `notes` of null, into "Invalid Notes input". */
  function FormatLookupInput(arg: LookupArg): (r: Outcome<Formatted>)
    ensures !r.Null?
    ensures r.Thrown? ==> r.error == InvalidNotesInput
    ensures r.Done? <==> arg != Raw(NullValue) && forall i | 0 <= i < |LookupNames(arg)| :: IsNoteName(LookupNames(arg)[i])
    ensures r.Done? && arg.Raw? && arg.value.One? ==> r.value == Text(arg.value.name)
    ensures r.Done? && !(arg.Raw? && arg.value.One?) ==> r.value == List(LookupNames(arg))
  {
    match arg
    case Raw(v) =>
      assert LookupNames(arg) == Listed(v);
      if v.NullValue? then Thrown(InvalidNotesInput)
      else if NotesVerdict(v).Done? then Done(if v.One? then Text(v.name) else List(v.names))
      else Thrown(InvalidNotesInput)
    case Object(ns) =>
      assert LookupNames(arg) == Listed(Many(ns)) == ns;
      if NotesVerdict(Many(ns)).Done? then Done(List(ns)) else Thrown(InvalidNotesInput)
  }

  /** formatLookupInput followed by the caller's `.map`, which throws a TypeError
      on a bare note string. */
  function LookupList(arg: LookupArg): (r: Outcome<seq<string>>)
    ensures !r.Null?
    ensures r.Done? <==> (arg.Object? || arg.value.Many?) && forall i | 0 <= i < |LookupNames(arg)| :: IsNoteName(LookupNames(arg)[i])
    ensures r.Done? ==> r.value == LookupNames(arg)
    ensures r.Thrown? ==> r.error in {InvalidNotesInput, NotAList}
  {
    var f :- FormatLookupInput(arg);
    match f
    case List(ns) => Done(ns)
    case Text(_) => Thrown(NotAList)
  }

  /** The optional limiter argument of a query: absent when falsy, otherwise
      formatted as a list. */
  function LimiterList(arg: LookupArg): (r: Outcome<Option<seq<string>>>)
    ensures !r.Null?
    ensures !Truthy(arg) ==> r == Done(None)
    ensures Truthy(arg) && LookupList(arg).Done? ==> r == Done(Some(LookupList(arg).value))
    ensures Truthy(arg) && LookupList(arg).Thrown? ==> r == Thrown(LookupList(arg).error)
  {
    if !Truthy(arg) then Done(None)
    else
      var l :- LookupList(arg);
      Done(Some(l))
  }

  /** The limiter clause as a query applies it: no clause for a falsy
      limiter, otherwise the limiter's list. */
  predicate LimiterAccepts(limiter: LookupArg, notes: set<PitchClass>) {
    Truthy(limiter) ==> LimiterOk(notes, LookupNames(limiter))
  }

  const Modes: seq<string> := [
    "diatonic", "melodic minor", "neapolitan major", "neapolitan minor",
    "harmonic minor", "harmonic major", "double harmonic", "hungarian major",
    "harmonic lydian"
  ]

  /** validateModeInput: null or one of the nine mode names. */
  function ModeVerdict(mode: Option<string>): (r: Outcome<()>)
    ensures !r.Null?
    ensures r.Done? <==> mode.None? || mode.value in Modes
    ensures r.Thrown? ==> r.error == RejectedMode(mode.value)
  {
    match mode
    case None => Done(())
    case Some(m) => if m in Modes then Done(()) else Thrown(RejectedMode(m))
  }

  /** JavaScript's `hay.includes(needle)`. */
  predicate Includes(hay: string, needle: string)
    decreases |hay|
  {
    needle <= hay || (|hay| > 0 && Includes(hay[1..], needle))
  }

  /** validateCategoryInput as written: it asks whether the category string
      includes itself, which every string does, so it never throws. */
  function CategoryVerdict(category: Option<string>): (r: Outcome<()>)
    ensures r == Done(())
  {
    match category
    case None => Done(())
    case Some(c) =>
      if !Includes(c, c) then Thrown(RejectedCategory(c)) else Done(())
  }

  /** The six chord categories validateCategoryInput lists; no query consults it. */
  const Categories: seq<string> := ["Triad", "Seven", "Nine", "Eleven", "Thirteen", "Six"]

  predicate IsKnownCategory(c: string) {
    c in Categories
  }

  /** An id argument: an integer, or any other JavaScript value. */
  datatype IdArg = IntegerId(id: int) | NotInteger

  /** validateGroupID: only integers pass. */
  function GroupIdVerdict(arg: IdArg): (r: Outcome<int>)
    ensures !r.Null?
    ensures r.Done? <==> arg.IntegerId?
    ensures r.Done? ==> r.value == arg.id
    ensures r.Thrown? ==> r.error == InvalidGroupId
  {
    match arg
    case IntegerId(n) => Done(n)
    case NotInteger => Thrown(InvalidGroupId)
  }

  /** getScaleGroups' table from a scale type to its number of notes; any
      other type is refused with "Invalid SCALE_LENGTH". */
  function ScaleLength(scaleType: string): (r: Outcome<nat>)
    ensures !r.Null?
    ensures r.Done? <==> scaleType in {"Pentatonic", "Hexatonic", "Heptatonic", "Octatonic", "Dodecatonic"}
    ensures r.Done? ==> 5 <= r.value <= 12 && r.value != 9 && r.value != 10 && r.value != 11
    ensures r.Thrown? ==> r.error == InvalidScaleLength
    ensures scaleType == "Pentatonic" ==> r == Done(5)
    ensures scaleType == "Hexatonic" ==> r == Done(6)
    ensures scaleType == "Heptatonic" ==> r == Done(7)
    ensures scaleType == "Octatonic" ==> r == Done(8)
    ensures scaleType == "Dodecatonic" ==> r == Done(12)
  {
    match scaleType
    case "Pentatonic" => Done(5)
    case "Hexatonic" => Done(6)
    case "Heptatonic" => Done(7)
    case "Octatonic" => Done(8)
    case "Dodecatonic" => Done(12)
    case _ => Thrown(InvalidScaleLength)
  }

  /** How many thirds a category stacks on its triad; a sixth chord sits
      beside the seventh as a four-note chord. */
  function Height(c: string): int {
    match c
    case "Triad" => 0
    case "Seven" => 1
    case "Six" => 1
    case "Nine" => 2
    case "Eleven" => 3
    case "Thirteen" => 4
    case _ => -1
  }

  /** The categories getChordExtensions looks for, given the base chord's
      category; an unlisted category yields a name no chord is stored under. */
  function ExtensionCategories(category: string): (r: set<string>)
    ensures |r| >= 1
    ensures forall e | e in r && IsKnownCategory(e) :: IsKnownCategory(category) && Height(e) == Height(category) + 1
    ensures IsKnownCategory(category) && category != "Six" && category != "Thirteen" ==>
      forall e | IsKnownCategory(e) :: e in r <==> Height(e) == Height(category) + 1
    ensures category == "Thirteen" || category == "Six" || !IsKnownCategory(category) ==>
      forall e | e in r :: !IsKnownCategory(e)
  {
    match category
    case "Triad" => {"Seven", "Six"}
    case "Seven" => {"Nine"}
    case "Nine" => {"Eleven"}
    case "Eleven" => {"Thirteen"}
    case "Thirteen" => {"ExtensionsForThirteen (None)"}
    case _ => {"ERROR: invalid chord category in getChordExtensions"}
  }
}
