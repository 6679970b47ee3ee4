/** `SearchComponent`: a text input over a flat `items` list with keyboard
    navigation and an `onSearch` callback. `suggestions` is derived from the
    query (the recomputing effect is modelled without its one-render delay);
    `items` is a fixed prop. */
module SearchComponent {
  import opened Text
  import opened Suggest
  import opened Options
  import opened Navigator

  /** `query`, `showSuggestions` and `selectedIndex`. */
  datatype State = State(query: string, show: bool, selected: int)

  /** A handler's effect: the next state, and the string passed to `onSearch`
      when the handler calls it. */
  datatype Outcome = Outcome(next: State, searched: Option<string>)

  /** The state on mount. */
  const Init := State("", false, -1)

  /** `suggestions`. */
  function Suggestions(items: seq<string>, s: State): seq<string> {
    Filter(s.query, items)
  }

  /** The highlight is "none" or a position in the suggestions. */
  predicate Inv(items: seq<string>, s: State) {
    InRange(s.selected, |Suggestions(items, s)|)
  }

  /** The render guard: `showSuggestions && suggestions.length > 0`. */
  predicate PanelVisible(items: seq<string>, s: State) {
    s.show && |Suggestions(items, s)| > 0
  }

  /** Typing replaces the query, opens the panel whatever was typed, and drops
      the highlight; the panel is then visible exactly when something matches. */
  function OnChange(items: seq<string>, s: State, text: string): (r: State)
    ensures r.query == text && r.show && r.selected == -1
    ensures Inv(items, r)
    ensures PanelVisible(items, r) <==> Filter(text, items) != []
    ensures IsBlank(text) ==> !PanelVisible(items, r)
  {
    State(text, true, -1)
  }

  /** Focus opens the panel and changes nothing else. */
  function OnFocus(items: seq<string>, s: State): (r: State)
    ensures r.query == s.query && r.selected == s.selected && r.show
    ensures Inv(items, s) ==> Inv(items, r)
  {
    s.(show := true)
  }

  /** What Enter and `handleSuggestionClick` both do to the widget's state:
      the query becomes the chosen string, the panel closes, the highlight
      resets, and `onSearch` gets the same string. */
  function Commit(items: seq<string>, s: State, suggestion: string): (r: Outcome)
    ensures r.searched == Some(r.next.query) && r.next.query == suggestion
    ensures !r.next.show && r.next.selected == -1 && Inv(items, r.next)
  {
    Outcome(State(suggestion, false, -1), Some(suggestion))
  }

  /** `handleSuggestionClick`: the commit, then `inputRef.current?.focus()`.
      The mouse-down on the suggestion has moved focus off the input, so the
      call focuses it again and runs its `onFocus` within the same handler;
      the batched updates close and then reopen the panel, and the later one
      wins. The panel stays open, now filtered by the committed string. */
  function OnSuggestionClick(items: seq<string>, s: State, suggestion: string): (r: Outcome)
    ensures r.searched == Some(r.next.query) && r.next.query == suggestion
    ensures r.next.show && r.next.selected == -1 && Inv(items, r.next)
    ensures PanelVisible(items, r.next) <==> Filter(suggestion, items) != []
  {
    var c := Commit(items, s, suggestion);
    c.(next := OnFocus(items, c.next))
  }

  /** `handleKeyDown`. Arrows move the highlight within the suggestions;
      Enter on a highlighted suggestion commits it and hands it to `onSearch`
      (Enter with nothing highlighted does nothing); Escape always closes the
      panel and drops the highlight.

      The Enter branch reads `suggestions[selectedIndex]` without a range
      check, so the handler relies on the highlight invariant. */
  function OnKeyDown(items: seq<string>, s: State, key: Key): (r: Outcome)
    requires Inv(items, s)
    ensures Inv(items, r.next)
    ensures key == ArrowDown ==> r.next == s.(selected := NextIndex(s.selected, |Suggestions(items, s)|))
    ensures key == ArrowUp ==> r.next == s.(selected := PrevIndex(s.selected))
    ensures r.searched.Some? <==> key == Enter && s.selected >= 0
    ensures r.searched.Some? ==>
              && r.searched.value == Suggestions(items, s)[s.selected]
              && r.next == State(r.searched.value, false, -1)
    ensures key == Enter && s.selected < 0 ==> r.next == s
    ensures key == Escape ==> r.next == s.(show := false, selected := -1) && !PanelVisible(items, r.next)
    ensures key == OtherKey ==> r.next == s
  {
    var suggestions := Suggestions(items, s);
    match key
    case ArrowDown => Outcome(s.(selected := NextIndex(s.selected, |suggestions|)), None)
    case ArrowUp => Outcome(s.(selected := PrevIndex(s.selected)), None)
    case Enter =>
      if s.selected >= 0 then Commit(items, s, suggestions[s.selected])
      else Outcome(s, None)
    case Escape => Outcome(s.(show := false, selected := -1), None)
    case OtherKey => Outcome(s, None)
  }

  /** `onMouseEnter` on the suggestion at `index` highlights that position. */
  function OnHover(items: seq<string>, s: State, index: nat): (r: State)
    requires index < |Suggestions(items, s)|
    ensures r.query == s.query && r.show == s.show
    ensures r.selected == index && r.selected < |Suggestions(items, r)|
    ensures Suggestions(items, r)[r.selected] == Suggestions(items, s)[index]
  {
    s.(selected := index)
  }

  /** A mouse-down outside the input and the panel closes the panel while it
      is rendered; the query and the highlight are left alone. */
  function OnOutsideClick(items: seq<string>, s: State): (r: State)
    ensures r.query == s.query && r.selected == s.selected
    ensures !PanelVisible(items, r)
    ensures !PanelVisible(items, s) ==> r == s
  {
    if PanelVisible(items, s) then s.(show := false) else s
  }

  /** Whatever Enter hands to `onSearch` is one of the items and matches the
      query case-insensitively. */
  lemma EnterSearchesMatchingItem(items: seq<string>, s: State)
    requires Inv(items, s)
    ensures var r := OnKeyDown(items, s, Enter);
            r.searched.Some? ==>
              && r.searched.value in items
              && !IsBlank(s.query)
              && Matches(r.searched.value, s.query)
  {
    var r := OnKeyDown(items, s, Enter);
    if r.searched.Some? {
      FilterMembership(s.query, items, r.searched.value);
    }
  }

  /** The events the rendered widget can receive. */
  datatype Event =
    | Change(text: string)
    | Focus
    | KeyDown(key: Key)
    | Click(index: nat)
    | Hover(index: nat)
    | OutsideClick

  /** A click on the suggestion at `index`, which only the rendered panel can
      receive. The clicked string matches itself, so the refocused panel
      stays visible and lists it. */
  function ClickAt(items: seq<string>, s: State, index: nat): (r: Outcome)
    requires Inv(items, s)
    ensures Inv(items, r.next)
    ensures r.searched.Some? <==> PanelVisible(items, s) && index < |Suggestions(items, s)|
    ensures r.searched.Some? ==>
              && r.searched.value == Suggestions(items, s)[index]
              && PanelVisible(items, r.next)
              && r.searched.value in Suggestions(items, r.next)
    ensures r.searched.None? ==> r.next == s
  {
    if PanelVisible(items, s) && index < |Suggestions(items, s)|
    then
      SuggestedItemSuggestsItself(s.query, items, Suggestions(items, s)[index]);
      OnSuggestionClick(items, s, Suggestions(items, s)[index])
    else Outcome(s, None)
  }

  /** A hover over the suggestion at `index`, which only the rendered panel can receive. */
  function HoverAt(items: seq<string>, s: State, index: nat): (r: State)
    requires Inv(items, s)
    ensures Inv(items, r)
  {
    if PanelVisible(items, s) && index < |Suggestions(items, s)| then OnHover(items, s, index) else s
  }

  /** Delivers one event. */
  function Step(items: seq<string>, s: State, e: Event): (r: Outcome)
    requires Inv(items, s)
    ensures Inv(items, r.next)
  {
    match e
    case Change(text) => Outcome(OnChange(items, s, text), None)
    case Focus => Outcome(OnFocus(items, s), None)
    case KeyDown(key) => OnKeyDown(items, s, key)
    case Click(i) => ClickAt(items, s, i)
    case Hover(i) => Outcome(HoverAt(items, s, i), None)
    case OutsideClick => Outcome(OnOutsideClick(items, s), None)
  }

  /** The state after a sequence of events, one at a time. */
  function Run(items: seq<string>, s: State, events: seq<Event>): (r: State)
    requires Inv(items, s)
    ensures Inv(items, r)
    decreases |events|
  {
    if events == [] then s else Run(items, Step(items, s, events[0]).next, events[1..])
  }

  lemma AnIsNotBlank()
    ensures !IsBlank("an")
  {
    NotBlankWithText("an", 0);
  }

  lemma AnMatches()
    ensures !Matches("Apple", "an") && Matches("Banana", "an") && Matches("Orange", "an")
  {
    AnMissesApple();
    AnMatchesBanana();
    AnMatchesOrange();
  }

  lemma AnMissesApple()
    ensures !Matches("Apple", "an")
  {
    assert LowerStr("an") == "an";
    assert LowerStr("Apple") == "apple";
    MissingCharNotIncluded("apple", "an", 1);
  }

  lemma AnMatchesBanana()
    ensures Matches("Banana", "an")
  {
    assert LowerStr("an") == "an";
    assert LowerStr("Banana") == "banana";
    OccurrenceIncluded("banana", "an", 1);
  }

  lemma AnMatchesOrange()
    ensures Matches("Orange", "an")
  {
    assert LowerStr("an") == "an";
    assert LowerStr("Orange") == "orange";
    OccurrenceIncluded("orange", "an", 2);
  }

  lemma AnKeepTail()
    ensures Keep(["Banana", "Orange"], "an") == ["Banana", "Orange"]
  {
    AnMatches();
    assert ["Orange"][1..] == [];
    assert Keep(["Orange"], "an") == ["Orange"];
    assert ["Banana", "Orange"][1..] == ["Orange"];
  }

  /** Typing "an" over Apple, Banana, Orange suggests Banana and Orange. */
  lemma AnFilter()
    ensures Filter("an", ["Apple", "Banana", "Orange"]) == ["Banana", "Orange"]
  {
    AnIsNotBlank();
    AnMatches();
    AnKeepTail();
    assert ["Apple", "Banana", "Orange"][1..] == ["Banana", "Orange"];
  }

  /** Typing "an" over Apple, Banana, Orange shows Banana and Orange;
      ArrowDown highlights Banana; Enter puts Banana in the field, closes the
      panel and calls `onSearch` with Banana. */
  lemma TypeArrowEnterScenario()
    ensures var items := ["Apple", "Banana", "Orange"];
            var typed := OnChange(items, Init, "an");
            var down := OnKeyDown(items, typed, ArrowDown).next;
            var enter := OnKeyDown(items, down, Enter);
            && Suggestions(items, typed) == ["Banana", "Orange"]
            && PanelVisible(items, typed)
            && down.selected == 0
            && enter.next == State("Banana", false, -1)
            && enter.searched == Some("Banana")
  {
    AnFilter();
  }

  lemma SpaceReMatches()
    ensures !Matches("React", " re") && Matches("Pure React", " re")
  {
    SpaceReMissesReact();
    SpaceReMatchesPureReact();
  }

  lemma SpaceReMissesReact()
    ensures !Matches("React", " re")
  {
    assert LowerStr(" re") == " re";
    assert LowerStr("React") == "react";
    MissingCharNotIncluded("react", " re", 0);
  }

  lemma SpaceReMatchesPureReact()
    ensures Matches("Pure React", " re")
  {
    assert LowerStr(" re") == " re";
    assert LowerStr("Pure React") == "pure react";
    OccurrenceIncluded("pure react", " re", 4);
  }

  lemma SpaceReKeepTail()
    ensures Keep(["Pure React"], " re") == ["Pure React"]
  {
    SpaceReMatches();
    assert ["Pure React"][1..] == [];
  }

  /** Matching uses the untrimmed query: " re" finds "Pure React" but not
      "React", although " re".trim() is "re". */
  lemma UntrimmedQueryScenario()
    ensures Filter(" re", ["React", "Pure React"]) == ["Pure React"]
  {
    NotBlankWithText(" re", 1);
    SpaceReMatches();
    SpaceReKeepTail();
    assert ["React", "Pure React"][1..] == ["Pure React"];
  }
}
