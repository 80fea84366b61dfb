# Chord and scale relationship queries, in Dafny

This project models two parts of a music-theory application.

The first is the query layer of its API (`api/bin/models/database.js`). That layer answers questions about stored chords and scales:
- the chords at a root in a category;
- the scales of a group;
- the chord or scale with one note swapped, added or removed;
- the same notes on another root;
- the scales whose name the user typed.

Each query follows the same steps:
1. It checks its inputs (note names, group ids, categories, scale types).
2. It asks the store for the rows that satisfy its WHERE/HAVING clauses, in its ORDER BY order.
3. It turns each row into a chord or scale object through the notation library.

The second part is the option panel's view logic (`ChordScaleController`). This covers which contents `render` builds for a view, the search placeholder, and four static predicates that decide whether the toggle, the note navigator, the type radio and the result list are shown.

The model is in Dafny modules:
- `Outcomes`: the result of a query. A query either finishes (`Done`), answers `null` because the store refused or failed (`Null`), or throws (`Thrown`).
- `Ordering`: string order, sort keys, a stable filter, an insertion sort proved sorted and a permutation, and an ascending listing without repeats.
- `Alphabet`: the twelve note names and the stored note sets. It also defines:
  - the overlap count `COUNT(note IN list)` (`Hits`);
  - the limiter clause `COUNT(note IN limiter) = LEAST(COUNT(DISTINCT note), |limiter|)` (`LimiterOk`);
  - a scale's note order and the comma-joined `GROUP_CONCAT` list together with its split.
- `Validation`: `validateNotesInput` (a loop), `formatLookupInput`, the mode, category and group-id checks, the scale-type table and the category ladder of `getChordExtensions`.
- `Corpus`: the store (chord rows, scale rows, groups) and a criteria language for the WHERE/HAVING clauses. It also holds `SelectChords`/`SelectScales`, which return exactly the matching rows in the ORDER BY order, and what the orders mean for pitch classes.
- `Shapes`: what the count clauses mean as set relations. These are "the same notes", "one added", "one removed" and "one swapped".
- `Assembly`: the loops that turn rows into objects, and the two failure policies. `getChords` relabels every note's `name` to `label`. `getScales` rethrows when the library rejects a row; the other scale queries skip such rows.
- `ChordQueries`, `ScaleQueries`: one function per exported query giving its rows, one method per query that runs an assembly loop, and the lemmas relating each query to the musical relation it computes.
- `Controller`: the view logic.

Each query is modelled in two parts:
- **the rows it returns.** These are stated by soundness and completeness (a row is returned iff it satisfies the clauses), by the order, and by every error path in the order the code checks them.
- **the assembly of those rows.** The methods are proved equal to the functions that specify them.

The musical meaning of a query is proved separately. For example, an alteration is never the base chord, and an appendment is the base plus exactly one note.

## Model

| member | source | states |
|---|---|---|
| Validation.CheckNames | api/bin/models/database.js:72-101 | the list passes iff every entry is one of the twelve names; otherwise it throws for the first entry that is not |
| Validation.NotesVerdict | api/bin/models/database.js:72-101 | null passes; a single value is checked as a one-element list |
| Validation.ValidateNotesInput | api/bin/models/database.js:72-101 | the forEach loop returns exactly the verdict NotesVerdict specifies |
| Validation.RootVerdict | api/bin/models/database.js:72-101 | a root passes iff it is null or a note name; otherwise "Invalid Note" is thrown for it |
| Validation.FormatLookupInput | api/bin/models/database.js:60-70 | succeeds iff the argument is not null and every name (of an object's notes, or of the value itself) is valid; a string stays a string; every failure becomes "Invalid Notes input" |
| Validation.LookupList | api/bin/models/database.js:60-70 | formatLookupInput followed by `.map`: a list iff an object or an array with valid names; a bare string throws |
| Validation.LimiterList | api/bin/models/database.js:177-186 | a falsy limiter adds no clause; a truthy one is formatted as a list or its error is thrown |
| Validation.ModeVerdict | api/bin/models/database.js:103-123 | a mode passes iff it is null or one of the nine mode names |
| Validation.CategoryVerdict | api/bin/models/database.js:125-140 | the category check never throws, because it asks whether the string includes itself |
| Validation.GroupIdVerdict | api/bin/models/database.js:225-227 | a group id passes iff it is an integer |
| Validation.ScaleLength | api/bin/models/database.js:356-367 | the five scale types map to 5, 6, 7, 8 and 12 notes; any other type throws "Invalid SCALE_LENGTH" |
| Validation.ExtensionCategories | api/bin/models/database.js:435-445 | for a listed category other than Six and Thirteen, a category is looked up iff it is one step up the ladder; Thirteen, Six and unlisted categories look up no stored category |
| Ordering.SortBy | api/bin/models/database.js:573-578 | an ORDER BY: the result is sorted by the key and is a permutation of the input |
| Ordering.Filter | api/bin/models/database.js:168-171 | a WHERE/HAVING over the stored rows keeps exactly the rows that satisfy it, and no more rows than are stored |
| Ordering.FilterConcat | api/bin/models/database.js:168-171 | filtering two runs of rows one after the other gives the two filtered runs one after the other: the clause keeps storage order |
| Ordering.FilterFirst | api/bin/models/database.js:349 | the first row kept is the first stored row that satisfies the clauses |
| Ordering.Squeeze | api/bin/models/database.js:372-390 | DISTINCT over a sorted id list keeps each id once and leaves the list strictly ascending |
| Alphabet.NameOrder | api/bin/models/database.js:80-93 | the string order of the twelve names is the order of their pitch classes |
| Alphabet.NamedSetSize | api/bin/models/database.js:80-93 | a list of distinct note names names exactly as many pitch classes as it has entries |
| Alphabet.LimiterRule | api/bin/models/database.js:181 | the limiter clause holds iff the stored notes lie within the limiter or contain all of it |
| Alphabet.AscendingFacts | api/bin/models/database.js:242-247 | the ascending walk over the pitch classes lists exactly the stored notes in range, strictly ascending |
| Alphabet.RotatedFromFacts | api/bin/models/database.js:242-247 | the note order lists every stored note once: first the notes at or above the root ascending, then those below ascending; it starts on the root when the root is a note |
| Alphabet.GroupConcatRoundTrip | api/bin/models/database.js:290 | splitting the comma-joined list on "," gives back exactly the ordered note names |
| Corpus.SelectChords | api/bin/models/database.js:194-200 | the store answers null iff it is unreachable or a list clause is empty; otherwise the rows returned are the matching stored rows, each as often as it is stored, sorted by the query's order (in storage order when there is no ORDER BY) |
| Corpus.SelectScales | api/bin/models/database.js:280-287 | as SelectChords for scales; each hit carries its group's name and its ordered note list |
| Corpus.SelectedScaleRows | api/bin/models/database.js:280-287 | the rows behind a scale query's hits are the matching stored rows, each as often as it is stored |
| Corpus.BucketOfNote | api/bin/models/database.js:903-910 | `root_note >= pivot` holds for a pitch class iff it is at or above the pivot's |
| Corpus.ChordSymbolOrder | api/bin/models/database.js:573-578 | chords rooted at or above the pivot come first, each part ordered by symbol |
| Corpus.ChordRootOrder | api/bin/models/database.js:829-832 | chords rooted at or above the pivot come first, each part ordered by root |
| Corpus.ScaleRootOrder | api/bin/models/database.js:903-910 | scales rooted at or above the pivot come first, each part ordered by root |
| Corpus.ScalePlainRootOrder | api/bin/models/database.js:1285 | without a pivot, scales come in ascending root order |
| Shapes.SameSet | api/bin/models/database.js:826-828 | n stored notes, all n of them listed, iff the stored set is the listed set |
| Shapes.OneAdded | api/bin/models/database.js:653-655 | n+1 stored notes with all n listed ones iff the stored set is the listed set plus exactly one note |
| Shapes.OneRemoved | api/bin/models/database.js:739-741 | n-1 stored notes, all listed, iff the stored set is the listed set minus exactly one note |
| Shapes.OneSwapped | api/bin/models/database.js:568-571 | n stored notes of which n-1 are listed iff exactly one note differs each way, so never the listed set itself |
| Assembly.Relabel | api/bin/models/database.js:208-212 | a note's `name` becomes `label` and every other field is kept |
| Assembly.RelabelRoundTrip | api/bin/models/database.js:208-212 | relabelling loses nothing: turning `label` back into `name` restores the note |
| Assembly.AssembleChord | api/bin/models/database.js:205-218 | the library's chord keeps its symbol and notes, relabelled, and takes the row's category and triad base |
| Assembly.ChordsFromRows | api/bin/models/database.js:205-220 | all rows are rebuilt, in order, iff the library accepts every symbol; otherwise the first rejected symbol is thrown |
| Assembly.ChordsStopAt | api/bin/models/database.js:205-220 | the loop stops at the first rejected row whatever follows it |
| Assembly.AssembleChords | api/bin/models/database.js:205-220 | the forEach loop computes ChordsFromRows |
| Assembly.BuildScale | api/bin/models/database.js:290-296 | a scale is built iff the library accepts the row and its root; it carries the row's group id and group name |
| Assembly.ScalesOrThrow | api/bin/models/database.js:289-301 | getScales' loop: every hit is rebuilt in order iff all are accepted; otherwise the first rejection is rethrown |
| Assembly.ScalesStopAt | api/bin/models/database.js:289-301 | the rethrowing loop stops at the first rejected hit |
| Assembly.AssembleScalesRethrowing | api/bin/models/database.js:289-301 | the rethrowing forEach computes ScalesOrThrow |
| Assembly.ScalesKeepingGood | api/bin/models/database.js:944-955 | the skipping loop returns no more scales than hits |
| Assembly.KeptInHitOrder | api/bin/models/database.js:944-955 | the skipping loop returns the scales the library builds, in hit order, with each rejected hit left out |
| Assembly.KeptScales | api/bin/models/database.js:944-955 | a scale is kept iff some hit builds it |
| Assembly.PoliciesAgree | api/bin/models/database.js:289-301 | the two policies agree whenever the library accepts every hit; rethrowing fails iff skipping drops something |
| Assembly.AssembleScalesDropping | api/bin/models/database.js:944-955 | the skipping forEach computes ScalesKeepingGood |
| ChordQueries.Rebuilt | api/bin/models/database.js:205-220 | rebuilt chords keep the rows' categories and triad bases, one per row; earlier failures pass through |
| ChordQueries.RunChordQuery | api/bin/models/database.js:194-220 | the fetch-then-loop of a chord query computes Rebuilt |
| ChordQueries.ChordRows | api/bin/models/database.js:147-200 | getChords: every error in the order checked; null iff unreachable or an empty limiter; a row is returned iff it has the root, the category and passes the limiter |
| ChordQueries.ChordsKeepRequestedCategory | api/bin/models/database.js:214-217 | every chord getChords returns carries the requested category |
| ChordQueries.GetChords | api/bin/models/database.js:147-223 | getChords is its rows rebuilt |
| ChordQueries.GetChordCategoryAndTriadBase | api/bin/models/database.js:306-350 | never throws; null iff unreachable or an empty list; the first stored chord the root and notes spell gives category (or "Crafted") and triad base (or null); no match gives "Crafted" and null |
| ChordQueries.SpelledMeansSameNotes | api/bin/models/database.js:320-333 | for a list of distinct names, a chord matches iff it has the root and exactly those notes |
| ChordQueries.ExtensionRows | api/bin/models/database.js:428-509 | getChordExtensions: every error in order (root, base, missing category, a string base, limiter); a row is returned iff at the root, in a ladder category, with the triad base if given, holding the base plus one note, and passing the limiter |
| ChordQueries.ExtensionsAddOneNote | api/bin/models/database.js:459-473 | each extension of a distinct-name base is the base plus exactly one note at the same root, one step up the ladder |
| ChordQueries.TopOfLadderHasNoExtensions | api/bin/models/database.js:442-443 | Thirteen, Six and unlisted categories have no extensions among chords stored under the six categories |
| ChordQueries.GetChordExtensions | api/bin/models/database.js:428-542 | getChordExtensions is its rows rebuilt |
| ChordQueries.NearbyChordRows | api/bin/models/database.js:547-604 | errors in order; null iff unreachable or an empty list; a row is returned iff its size and overlap with the base are as the query counts and it passes the limiter, ordered by pivot bucket and symbol |
| ChordQueries.AlterationRows | api/bin/models/database.js:568-571 | alterations: as many notes as the base, all but one listed |
| ChordQueries.AppendmentRows | api/bin/models/database.js:653-655 | appendments: one note more than the base, all base notes among them |
| ChordQueries.DeductionRows | api/bin/models/database.js:739-741 | deductions: one note fewer than the base, all listed |
| ChordQueries.NearbyChordShapes | api/bin/models/database.js:547-799 | an alteration swaps exactly one note and is never the base; an appendment adds exactly one; a deduction removes exactly one; each both ways |
| ChordQueries.NearbyChordOrder | api/bin/models/database.js:573-578 | results rooted at or above the base's first note come first, each part by symbol |
| ChordQueries.GetChordAlterations | api/bin/models/database.js:547-630 | getChordAlterations is its rows rebuilt |
| ChordQueries.GetChordAppendments | api/bin/models/database.js:632-716 | getChordAppendments is its rows rebuilt |
| ChordQueries.GetChordDeductions | api/bin/models/database.js:718-799 | getChordDeductions is its rows rebuilt |
| ChordQueries.RotationRows | api/bin/models/database.js:801-842 | errors in order; null iff unreachable, an empty list, or a chord object (its spread throws inside the try); a row is returned iff on another root with exactly as many notes, all listed, ordered by the root pivot |
| ChordQueries.RotationsShareNotes | api/bin/models/database.js:819-832 | rotations are exactly the chords with the same notes on another root, those at or above the root first |
| ChordQueries.GetChordRotations | api/bin/models/database.js:801-866 | getChordRotations is its rows rebuilt |
| ScaleQueries.RebuiltOrThrow | api/bin/models/database.js:289-301 | rebuilt scales keep each hit's group id and name, one per hit |
| ScaleQueries.RebuiltKeepingGood | api/bin/models/database.js:944-955 | the skipping loop returns the scales the library builds, in hit order, with each rejected hit left out; earlier failures pass through |
| ScaleQueries.RunScaleQueryRethrowing | api/bin/models/database.js:280-301 | getScales' fetch-then-loop computes RebuiltOrThrow |
| ScaleQueries.RunScaleQueryDropping | api/bin/models/database.js:935-955 | the other scale queries' fetch-then-loop computes RebuiltKeepingGood |
| ScaleQueries.HitNotesFromRoot | api/bin/models/database.js:242-247 | a hit's note list holds exactly the scale's notes, rotated to its root and starting on it |
| ScaleQueries.ScaleRows | api/bin/models/database.js:230-287 | getScales: errors in order (root, group id, limiter); null iff unreachable or an empty limiter; a hit is returned iff at the root, in the group, passing the limiter |
| ScaleQueries.ScalesOfRequestedGroup | api/bin/models/database.js:292-294 | every scale getScales returns is in the requested group and carries its name |
| ScaleQueries.GetScales | api/bin/models/database.js:230-303 | getScales is its hits rebuilt, rethrowing |
| ScaleQueries.GroupsOf | api/bin/models/database.js:372-390 | the listed groups have strictly ascending ids |
| ScaleQueries.GroupsOfMembership | api/bin/models/database.js:372-390 | a group is listed iff some matching hit belongs to it |
| ScaleQueries.ScaleGroupRows | api/bin/models/database.js:355-423 | getScaleGroups: errors in order (root, scale type, limiter); strictly ascending ids; a group is listed iff it has a scale at the root with the type's number of notes passing the limiter |
| ScaleQueries.NearbyScaleRows | api/bin/models/database.js:870-938 | errors in order; null iff unreachable or an empty list; a hit is returned iff its size and overlap are as counted and it passes the limiter, ordered by the first base note's bucket and root |
| ScaleQueries.ScaleAlterationRows | api/bin/models/database.js:898-900 | scale alterations: as many notes as the base, all but one listed |
| ScaleQueries.ScaleAppendmentRows | api/bin/models/database.js:989-991 | scale appendments: one note more, all base notes among them |
| ScaleQueries.ScaleDeductionRows | api/bin/models/database.js:1077-1079 | scale deductions: one note fewer, all listed |
| ScaleQueries.NearbyScaleShapes | api/bin/models/database.js:870-1132 | one note swapped (never the base), exactly one added, exactly one removed |
| ScaleQueries.NearbyScaleOrder | api/bin/models/database.js:903-910 | results rooted at or above the base's first note come first, each part by root |
| ScaleQueries.GetScaleAlterations | api/bin/models/database.js:870-959 | getScaleAlterations is its hits rebuilt, skipping rejections |
| ScaleQueries.GetScaleAppendments | api/bin/models/database.js:961-1047 | getScaleAppendments is its hits rebuilt, skipping rejections |
| ScaleQueries.GetScaleDeductions | api/bin/models/database.js:1049-1132 | getScaleDeductions is its hits rebuilt, skipping rejections |
| ScaleQueries.ScaleRotationRows | api/bin/models/database.js:1134-1186 | errors in order; null iff unreachable or an empty list; a hit is returned iff on another root with exactly the listed notes' count and all of them, ordered by the root pivot |
| ScaleQueries.ScaleRotationsShareNotes | api/bin/models/database.js:1161-1169 | for a plain list, rotations are exactly the scales with the same notes on another root |
| ScaleQueries.ScaleRotationOrder | api/bin/models/database.js:1170-1173 | rotations rooted at or above the given root come first, each part by ascending root |
| ScaleQueries.GetScaleRotations | api/bin/models/database.js:1134-1204 | getScaleRotations is its hits rebuilt, skipping rejections |
| ScaleQueries.SelectedScale | api/bin/models/database.js:1211 | a falsy selection gives none; a truthy one is formatted without `.map`, so a string stays a string |
| ScaleQueries.UserPivot | api/bin/models/database.js:1265-1281 | the pivot is a selected list's first note, or a selected note string's first character; with nothing selected, the limiter's first note; with neither, no pivot; the first entry of an empty list is refused by the store |
| ScaleQueries.UserStringRows | api/bin/models/database.js:1208-1298 | errors in order (selection, limiter); null iff unreachable, an empty limiter, or an undefined pivot; a hit is returned iff its "root name" has the text at a word boundary and it passes the limiter, ordered by the pivot |
| ScaleQueries.UserStringOrder | api/bin/models/database.js:1263-1285 | with a selected list of note names, scales rooted at or above its first note come first, each part by ascending root |
| ScaleQueries.UserStringTextOrder | api/bin/models/database.js:1265-1271 | with a single note string selected, scales rooted at or above its first character come first ("C#" orders from C), each part by ascending root |
| ScaleQueries.TextSelectionPivot | api/bin/models/database.js:1210-1271 | a selected note string stays a string, and the pivot is its first character, itself a note name |
| ScaleQueries.UserStringLimiterOrder | api/bin/models/database.js:1272-1281 | with nothing selected and a limiter, scales rooted at or above the limiter's first note come first, each part by ascending root |
| ScaleQueries.UserStringPlainOrder | api/bin/models/database.js:1263-1285 | with nothing selected and no limiter, scales come in ascending root order |
| ScaleQueries.TokenFromAt | api/bin/models/database.js:1258 | `REGEXP CONCAT("\\b", text)` holds iff the text starts, ignoring case, at some word boundary |
| ScaleQueries.TokenFindsScale | api/bin/models/database.js:1258 | a prefix of the "root name", or of a name that starts with a letter or digit, finds the scale |
| ScaleQueries.GetScalesFromUserString | api/bin/models/database.js:1208-1316 | getScalesFromUserString is its hits rebuilt, skipping rejections |
| Controller.ToggleIsVisible | client/src/components/options/Controller/ChordScale/index.js:307-317 | never without a secondary selection; with one, iff the view is navsearch, search, or selected with no primary |
| Controller.NotenavIsVisible | client/src/components/options/Controller/ChordScale/index.js:319-321 | iff the view is navsearch or navsearchmode |
| Controller.RadioIsVisible | client/src/components/options/Controller/ChordScale/index.js:323-325 | iff the view is navsearch or edit |
| Controller.ListIsVisible | client/src/components/options/Controller/ChordScale/index.js:327-336 | search: iff text results; selected: iff no primary and text results; navsearch, navsearchmode, edit: iff navigator results; any other view: never |
| Controller.Placeholder | client/src/components/options/Controller/ChordScale/index.js:48-59 | a non-empty example for "chord" and "scale"; any other type throws |
| Controller.PlaceholdersDiffer | client/src/components/options/Controller/ChordScale/index.js:48-59 | the chord and scale examples differ |
| Controller.TextSearch | client/src/components/options/Controller/ChordScale/index.js:48-59 | the text search renders for "chord" and "scale" and throws getPlaceholder's error for any other type |
| Controller.Render | client/src/components/options/Controller/ChordScale/index.js:277-303 | per view: search is the text search; selected needs a selection and shows it when there is a primary, else falls back to the text search; navsearch needs chord or scale; navsearchmode refuses chord; edit needs a selection and chord or scale; any other view throws |
| Controller.SelectedFallsBackToSearch | client/src/components/options/Controller/ChordScale/index.js:280-282 | the selected view with no primary renders exactly what the search view renders |
| Controller.VisibilityMatchesRender | client/src/components/options/Controller/ChordScale/index.js:61-274 | the static predicates agree with the widgets render builds for the same view: note navigator, radio, toggle slot (given a secondary) and result list |

## Left out

- The MySQL pool, the fetch helpers, promises and logging are left out. The store is a parameter (`Corpus.Store`), and a failed fetch is its `reachable` flag or an empty `IN ()` list.
- SQL text is not modelled: placeholders, string building and parameter positions. The clauses are modelled by what they select.
- The `chord-expressions` library (`Chord.chordFromNotation`, `Scale.fromSimple`, `Note.fromName`) is a parameter (`Assembly.Parsers`) that may reject a row. Only the rethrow and skip policies around it are modelled. The error it throws is modelled as `ReconstructionFailure` with the row's symbol or name.
- `getSubscalesFromScale` is left out. It reads an undefined `obj` and is not exported, so it cannot run.
- `validateNotesInput` is modelled as accepting undefined like null. As written it throws a TypeError for undefined, which only happens for queries whose root has no default.
- A missing `selection` object in the static controller predicates (a TypeError) is not modelled. Those predicates take the truthiness of `selection.primary` and `selection.secondary`.
- `toggleIsVisible` and `listIsVisible` return the JavaScript value of their last operand. The model keeps only its truthiness.
- Queries without ORDER BY (`getChords`, `getScales`, `getChordExtensions`, `getChordCategoryAndTriadBase`) are modelled as returning rows in storage order. MySQL promises no order there.
- Several joins with `chord_has_note` are on the chord symbol alone: in `getChordCategoryAndTriadBase`, `getChordExtensions`, `getChordAlterations`, `getChordAppendments`, `getChordDeductions` and `getChordRotations` (api/bin/models/database.js:458, 562, 647, 733, 818). The model assumes symbols are unique.
- `REGEXP` metacharacters in the user's text are not modelled; the text is matched literally. Case is folded for ASCII letters only, as the store's collation is assumed to do.
- The chord tables are assumed to compare byte-wise (a binary collation): ORDER BY `chord_symbol`, and `=` on `category`, `triad_base` and `symbol`. The symbol joins need this, since a case-insensitive comparison would join "Cm7" with "CM7". Both this and the case folding of `REGEXP` above are assumptions about the store's collation, which is not part of the source.
- ScaleQueries.UserStringRows: an undefined `userString` is modelled as `None`, SQL NULL, which matches no scale. As written, the driver refuses an undefined bind parameter and the query returns null.
- Object keys such as "constructor" in the category ladder lookup are not modelled. Those inherited prototype keys would be truthy in JavaScript.
- Ordering.SortBy: MySQL's sort is not stable. The model sorts stably, which fixes one of the orders MySQL may return for equal keys.
- JSX, `componentDidUpdate` and `setState` in the controller are left out, as are the radio widgets. The model keeps the decisions, not the markup.
- Validation.ScaleLength: the scale type is modelled as a string. A value of another type fails the table lookup in the same way and is not modelled separately. Inherited object keys such as "constructor" or "toString" are not modelled: the table lookup returns a truthy function for them, so the source does not throw "Invalid SCALE_LENGTH", while the model does.
