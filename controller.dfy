/** The chord/scale options panel's decisions (ChordScaleController): which
    contents `render` builds for a view, the search placeholder, and the
    static predicates the parent uses to decide whether the toggle, the note
    navigator, the type radio and the result list are visible. Only the
    truthiness of the JavaScript values involved is modelled. */
module Controller {
  import opened Outcomes

  /** The truthiness of `selection.primary` and `selection.secondary`. */
  datatype Selection = Selection(primary: bool, secondary: bool)

  /** `view[focus]`: the view shown for the focused panel, if any. */
  function ViewOf(view: map<string, string>, focus: string): Option<string> {
    if focus in view then Some(view[focus]) else None
  }

  predicate ViewIs(view: map<string, string>, focus: string, name: string) {
    ViewOf(view, focus) == Some(name)
  }

  /** toggleIsVisible: the match toggle is offered only when something is
      selected in the other panel, and then in the text search, in the
      note-navigator search, and in the selected view while it stands in
      for the text search (nothing selected here). */
  function ToggleIsVisible(view: map<string, string>, focus: string, selection: Selection): (r: bool)
    ensures !selection.secondary ==> !r
    ensures selection.secondary ==>
      (r <==> || ViewIs(view, focus, "navsearch")
              || ViewIs(view, focus, "search")
              || (ViewIs(view, focus, "selected") && !selection.primary))
  {
    var selectedWithoutPrimary := ViewIs(view, focus, "selected") && !selection.primary && selection.secondary;
    var navsearchWithSecondary := ViewIs(view, focus, "navsearch") && selection.secondary;
    var searchWithSecondary := ViewIs(view, focus, "search") && selection.secondary;
    selectedWithoutPrimary || navsearchWithSecondary || searchWithSecondary
  }

  /** notenavIsVisible: the note navigator belongs to the two navigator searches. */
  function NotenavIsVisible(view: map<string, string>, focus: string): (r: bool)
    ensures r <==> ViewOf(view, focus) in {Some("navsearch"), Some("navsearchmode")}
  {
    ViewIs(view, focus, "navsearch") || ViewIs(view, focus, "navsearchmode")
  }

  /** radioIsVisible: the type radio belongs to the navigator search and the
      edit view. It has notenavIsVisible's shape, with the edit view in place
      of the mode search. */
  function RadioIsVisible(view: map<string, string>, focus: string): (r: bool)
    ensures r <==> ViewOf(view, focus) in {Some("navsearch"), Some("edit")}
  {
    ViewIs(view, focus, "navsearch") || ViewIs(view, focus, "edit")
  }

  /** listIsVisible: text-search results show in the text search (and in the
      selected view standing in for it); navigator results show in the two
      navigator searches and the edit view; nothing shows anywhere else. */
  function ListIsVisible(view: map<string, string>, focus: string, navSearchGets: bool, textSearchGets: bool,
                         selection: Selection): (r: bool)
    ensures ViewIs(view, focus, "search") ==> (r <==> textSearchGets)
    ensures ViewIs(view, focus, "selected") ==> (r <==> !selection.primary && textSearchGets)
    ensures ViewOf(view, focus) in {Some("navsearch"), Some("navsearchmode"), Some("edit")} ==> (r <==> navSearchGets)
    ensures ViewOf(view, focus) !in {Some("search"), Some("selected"), Some("navsearch"), Some("navsearchmode"), Some("edit")} ==> !r
  {
    if ViewIs(view, focus, "selected") && !selection.primary && textSearchGets then true
    else if ViewIs(view, focus, "search") && textSearchGets then true
    else if ViewIs(view, focus, "navsearch") || ViewIs(view, focus, "navsearchmode") || ViewIs(view, focus, "edit") then navSearchGets
    else false
  }

  /** What rendering can throw. */
  datatype UiError =
    | NotChordOrScale               // getPlaceholder's TypeError
    | NavSearchNeedsChordOrScale    // "navsearch must be chord or scale"
    | ChordHasNoModeSearch          // "props.type 'chord' has no 'navsearchmode'"
    | EditNeedsSelection            // "... requires this.props.selection ..."
    | EditNeedsChordOrScale         // "edit must be chord or scale"
    | SelectionMissing              // reading `primary` of a missing selection
    | InvalidView(view: Option<string>)

  datatype Rendered<T> = Ok(value: T) | Throws(error: UiError)

  /** getPlaceholder: the example text of the search box. */
  function Placeholder(kind: string): (r: Rendered<string>)
    ensures r.Ok? <==> kind == "chord" || kind == "scale"
    ensures r.Throws? ==> r.error == NotChordOrScale
    ensures r.Ok? ==> |r.value| > 0
  {
    match kind
    case "chord" => Ok("C7, E, Am, etc")
    case "scale" => Ok("C Major, E Lydian, etc")
    case _ => Throws(NotChordOrScale)
  }

  /** The two panels show different examples. */
  lemma PlaceholdersDiffer()
    ensures Placeholder("chord").value != Placeholder("scale").value
  {
    assert Placeholder("chord").value[1] != Placeholder("scale").value[1];
  }

  /** The five contents the controller can build. */
  datatype Contents = TextSearchContents | SelectedContents | NavSearchContents | NavSearchModeContents | EditContents

  /** getTextSearchViewContents, which asks for the placeholder. */
  function TextSearch(kind: string): (r: Rendered<Contents>)
    ensures kind == "chord" || kind == "scale" ==> r == Ok(TextSearchContents)
    ensures kind != "chord" && kind != "scale" ==> r == Throws(NotChordOrScale)
  {
    match Placeholder(kind)
    case Ok(_) => Ok(TextSearchContents)
    case Throws(e) => Throws(e)
  }

  /** render: the contents for `props.view`; the selected view without a
      primary selection falls back to the text search; any other view throws. */
  function Render(view: Option<string>, kind: string, selection: Option<Selection>): (r: Rendered<Contents>)
    ensures r.Ok? ==> view.Some? && view.value in {"selected", "search", "navsearch", "navsearchmode", "edit"}
    ensures view.None? || view.value !in {"selected", "search", "navsearch", "navsearchmode", "edit"} ==>
      r == Throws(InvalidView(view))
    ensures r.Ok? && kind != "chord" && kind != "scale" ==> r.value in {SelectedContents, NavSearchModeContents}
    ensures r.Ok? && r.value == NavSearchModeContents ==> kind != "chord"
    ensures r.Ok? && r.value in {SelectedContents, EditContents} ==> selection.Some?
    ensures r.Ok? && r.value == SelectedContents ==> selection.value.primary
    ensures view == Some("search") ==> r == TextSearch(kind)
    ensures view == Some("selected") ==>
      r == (if selection.None? then Throws(SelectionMissing)
            else if selection.value.primary then Ok(SelectedContents)
            else TextSearch(kind))
    ensures view == Some("navsearch") ==>
      r == (if kind == "chord" || kind == "scale" then Ok(NavSearchContents) else Throws(NavSearchNeedsChordOrScale))
    ensures view == Some("navsearchmode") ==>
      r == (if kind == "chord" then Throws(ChordHasNoModeSearch) else Ok(NavSearchModeContents))
    ensures view == Some("edit") ==>
      r == (if selection.None? then Throws(EditNeedsSelection)
            else if kind != "chord" && kind != "scale" then Throws(EditNeedsChordOrScale)
            else Ok(EditContents))
  {
    match view
    case Some("selected") =>
      (match selection
       case None => Throws(SelectionMissing)
       case Some(s) => if s.primary then Ok(SelectedContents) else TextSearch(kind))
    case Some("search") => TextSearch(kind)
    case Some("navsearch") =>
      if kind != "chord" && kind != "scale" then Throws(NavSearchNeedsChordOrScale) else Ok(NavSearchContents)
    case Some("navsearchmode") =>
      if kind == "chord" then Throws(ChordHasNoModeSearch) else Ok(NavSearchModeContents)
    case Some("edit") =>
      if selection.None? then Throws(EditNeedsSelection)
      else if kind != "chord" && kind != "scale" then Throws(EditNeedsChordOrScale)
      else Ok(EditContents)
    case _ => Throws(InvalidView(view))
  }

  /** The selected view with nothing selected renders exactly what the text
      search renders, errors included. */
  lemma SelectedFallsBackToSearch(kind: string, selection: Selection)
    requires !selection.primary
    ensures Render(Some("selected"), kind, Some(selection)) == Render(Some("search"), kind, Some(selection))
  {
  }

  /** The widgets each contents builds: the note navigator, the type radio,
      a slot for the toggle (filled when the parent requires it), and the
      result list (the text search shows it only when there are results). */
  predicate HasNoteNav(c: Contents) {
    c == NavSearchContents || c == NavSearchModeContents
  }

  predicate HasRadio(c: Contents) {
    c == NavSearchContents || c == EditContents
  }

  predicate HasToggleSlot(c: Contents) {
    c == TextSearchContents || c == NavSearchContents
  }

  predicate ShowsList(c: Contents, navSearchGets: bool, textSearchGets: bool) {
    match c
    case TextSearchContents => textSearchGets
    case SelectedContents => false
    case _ => navSearchGets
  }

  /** The static predicates agree with what render builds for the same view:
      the note navigator and the radio are visible exactly when the contents
      hold them; with a secondary selection the toggle is visible exactly
      when the contents have a place for it, and without one never; the list
      is visible exactly when the contents show it. */
  lemma VisibilityMatchesRender(view: map<string, string>, focus: string, kind: string, selection: Selection,
                                navSearchGets: bool, textSearchGets: bool)
    requires Render(ViewOf(view, focus), kind, Some(selection)).Ok?
    ensures var c := Render(ViewOf(view, focus), kind, Some(selection)).value;
      && (NotenavIsVisible(view, focus) <==> HasNoteNav(c))
      && (RadioIsVisible(view, focus) <==> HasRadio(c))
      && (selection.secondary ==> (ToggleIsVisible(view, focus, selection) <==> HasToggleSlot(c)))
      && (ListIsVisible(view, focus, navSearchGets, textSearchGets, selection) <==> ShowsList(c, navSearchGets, textSearchGets))
  {
    var v := ViewOf(view, focus).value;
    if v == "selected" {
      assert ViewIs(view, focus, "selected");
    } else if v == "search" {
      assert ViewIs(view, focus, "search");
    } else if v == "navsearch" {
      assert ViewIs(view, focus, "navsearch");
    } else if v == "navsearchmode" {
      assert ViewIs(view, focus, "navsearchmode");
    } else {
      assert ViewIs(view, focus, "edit");
    }
  }
}
