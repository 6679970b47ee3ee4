/** `SearchBar` in the examples folder: the same flat search widget as
    `SearchComponent`, over a fixed sample list and without a callback. Its
    state record (`query`, `showSuggestions`, `selectedIndex`) has the same
    shape, so it reuses `SearchComponent.State` and `SearchComponent.Event`. */
module SearchSuggestionExample {
  import opened Suggest
  import opened Navigator
  import SearchComponent

  type State = SearchComponent.State
  type Event = SearchComponent.Event

  /** `sampleItems`. */
  const SampleItems: seq<string> := [
    "JavaScript", "TypeScript", "React", "Next.js", "Node.js", "CSS", "HTML",
    "Tailwind CSS", "Redux", "GraphQL", "REST API", "MongoDB", "PostgreSQL",
    "Express", "Vue.js", "Angular", "Svelte", "Docker", "Kubernetes", "AWS",
    "Firebase", "Vercel", "Netlify"
  ]

  /** `suggestions`: the sample items matching the query. */
  function Suggestions(s: State): seq<string> {
    Filter(s.query, SampleItems)
  }

  /** The highlight starts at -1 and stays -1 or a position in the suggestions. */
  predicate Inv(s: State) {
    InRange(s.selected, |Suggestions(s)|)
  }

  /** `showSuggestions && suggestions.length > 0`. */
  predicate PanelVisible(s: State) {
    s.show && |Suggestions(s)| > 0
  }

  /** Typing replaces the query, opens the panel unconditionally and drops the
      highlight; the dropdown then shows exactly when something matches. */
  function OnChange(s: State, text: string): (r: State)
    ensures r.query == text && r.show && r.selected == -1 && Inv(r)
    ensures PanelVisible(r) <==> Filter(text, SampleItems) != []
  {
    SearchComponent.State(text, true, -1)
  }

  /** Focus opens the panel and changes nothing else. */
  function OnFocus(s: State): (r: State)
    ensures r.query == s.query && r.selected == s.selected && r.show
    ensures Inv(s) ==> Inv(r)
  {
    s.(show := true)
  }

  /** What Enter and `handleSuggestionClick` both do: the query becomes the
      chosen suggestion, the panel closes and the highlight resets. */
  function Commit(s: State, suggestion: string): (r: State)
    ensures r.query == suggestion && !r.show && r.selected == -1 && Inv(r)
  {
    SearchComponent.State(suggestion, false, -1)
  }

  /** `handleSuggestionClick`: the commit, then `inputRef.current?.focus()`,
      which runs the input's `onFocus` in the same handler (the mouse-down on
      the suggestion has moved focus away); the batched updates leave the
      panel open, filtered by the committed suggestion. */
  function OnSuggestionClick(s: State, suggestion: string): (r: State)
    ensures r.query == suggestion && r.show && r.selected == -1 && Inv(r)
    ensures PanelVisible(r) <==> Filter(suggestion, SampleItems) != []
  {
    OnFocus(Commit(s, suggestion))
  }

  /** `handleKeyDown`: ArrowDown never passes the last suggestion, ArrowUp
      from 0 or -1 gives -1, Enter on a highlighted suggestion puts it in the
      field (Enter at -1 does nothing), Escape closes and drops the highlight. */
  function OnKeyDown(s: State, key: Key): (r: State)
    requires Inv(s)
    ensures Inv(r)
    ensures key == ArrowDown ==> r == s.(selected := NextIndex(s.selected, |Suggestions(s)|))
    ensures key == ArrowUp ==> r == s.(selected := PrevIndex(s.selected))
    ensures key == Enter && s.selected >= 0 ==>
              r == SearchComponent.State(Suggestions(s)[s.selected], false, -1)
    ensures key == Enter && s.selected < 0 ==> r == s
    ensures key == Escape ==> r == s.(show := false, selected := -1) && !PanelVisible(r)
    ensures key == OtherKey ==> r == s
  {
    var suggestions := Suggestions(s);
    match key
    case ArrowDown => s.(selected := NextIndex(s.selected, |suggestions|))
    case ArrowUp => s.(selected := PrevIndex(s.selected))
    case Enter => if s.selected >= 0 then Commit(s, suggestions[s.selected]) else s
    case Escape => s.(show := false, selected := -1)
    case OtherKey => s
  }

  /** `onMouseEnter` on the suggestion at `index` highlights that position. */
  function OnHover(s: State, index: nat): (r: State)
    requires index < |Suggestions(s)|
    ensures r.query == s.query && r.show == s.show
    ensures r.selected == index && r.selected < |Suggestions(r)|
    ensures Suggestions(r)[r.selected] == Suggestions(s)[index]
  {
    s.(selected := index)
  }

  /** A mouse-down outside closes the rendered panel; query and highlight stay. */
  function OnOutsideClick(s: State): (r: State)
    ensures r.query == s.query && r.selected == s.selected
    ensures !PanelVisible(r)
    ensures !PanelVisible(s) ==> r == s
  {
    if PanelVisible(s) then s.(show := false) else s
  }

  /** A click on the suggestion at `index`, which only the rendered panel can
      receive. The refocused panel stays visible and lists the clicked item. */
  function ClickAt(s: State, index: nat): (r: State)
    requires Inv(s)
    ensures Inv(r)
    ensures PanelVisible(s) && index < |Suggestions(s)| ==>
              && r.query == Suggestions(s)[index]
              && PanelVisible(r)
              && r.query in Suggestions(r)
    ensures !(PanelVisible(s) && index < |Suggestions(s)|) ==> r == s
  {
    if PanelVisible(s) && index < |Suggestions(s)|
    then
      SuggestedItemSuggestsItself(s.query, SampleItems, Suggestions(s)[index]);
      OnSuggestionClick(s, Suggestions(s)[index])
    else s
  }

  /** A hover over the suggestion at `index`, which only the rendered panel can receive. */
  function HoverAt(s: State, index: nat): (r: State)
    requires Inv(s)
    ensures Inv(r)
  {
    if PanelVisible(s) && index < |Suggestions(s)| then OnHover(s, index) else s
  }

  /** Delivers one event. Clicks and hovers reach a suggestion only while the
      panel renders it; otherwise they change nothing. */
  function Step(s: State, e: Event): (r: State)
    requires Inv(s)
    ensures Inv(r)
    ensures (e.Click? || e.Hover?) && !PanelVisible(s) ==> r == s
    ensures e.Hover? && PanelVisible(s) && e.index < |Suggestions(s)| ==> r.selected == e.index
  {
    match e
    case Change(text) => OnChange(s, text)
    case Focus => OnFocus(s)
    case KeyDown(key) => OnKeyDown(s, key)
    case Click(i) => ClickAt(s, i)
    case Hover(i) => HoverAt(s, i)
    case OutsideClick => OnOutsideClick(s)
  }

  /** The example's handlers behave as `SearchComponent`'s over the sample
      list, with the `onSearch` notification dropped. */
  lemma AgreesWithSearchComponent(s: State, text: string, key: Key, index: nat)
    requires Inv(s)
    ensures SearchComponent.Inv(SampleItems, s)
    ensures OnChange(s, text) == SearchComponent.OnChange(SampleItems, s, text)
    ensures OnFocus(s) == SearchComponent.OnFocus(SampleItems, s)
    ensures OnKeyDown(s, key) == SearchComponent.OnKeyDown(SampleItems, s, key).next
    ensures ClickAt(s, index) == SearchComponent.ClickAt(SampleItems, s, index).next
    ensures HoverAt(s, index) == SearchComponent.HoverAt(SampleItems, s, index)
    ensures OnOutsideClick(s) == SearchComponent.OnOutsideClick(SampleItems, s)
  {
    KeyDownAgrees(s, key);
    ClickAgrees(s, index);
    HoverAgrees(s, index);
    OutsideClickAgrees(s);
  }

  lemma KeyDownAgrees(s: State, key: Key)
    requires Inv(s)
    ensures SearchComponent.Inv(SampleItems, s)
    ensures OnKeyDown(s, key) == SearchComponent.OnKeyDown(SampleItems, s, key).next
  {
  }

  lemma ClickAgrees(s: State, index: nat)
    requires Inv(s)
    ensures SearchComponent.Inv(SampleItems, s)
    ensures ClickAt(s, index) == SearchComponent.ClickAt(SampleItems, s, index).next
  {
    assert PanelVisible(s) == SearchComponent.PanelVisible(SampleItems, s);
  }

  lemma HoverAgrees(s: State, index: nat)
    requires Inv(s)
    ensures SearchComponent.Inv(SampleItems, s)
    ensures HoverAt(s, index) == SearchComponent.HoverAt(SampleItems, s, index)
  {
    if PanelVisible(s) && index < |Suggestions(s)| {
      HoverAgreesRendered(s, index);
    } else {
      assert SearchComponent.HoverAt(SampleItems, s, index) == s;
    }
  }

  lemma HoverAgreesRendered(s: State, index: nat)
    requires Inv(s) && PanelVisible(s) && index < |Suggestions(s)|
    ensures SearchComponent.Inv(SampleItems, s)
    ensures HoverAt(s, index) == SearchComponent.HoverAt(SampleItems, s, index)
  {
    assert HoverAt(s, index) == OnHover(s, index);
    assert SearchComponent.HoverAt(SampleItems, s, index) == SearchComponent.OnHover(SampleItems, s, index);
  }

  lemma OutsideClickAgrees(s: State)
    ensures OnOutsideClick(s) == SearchComponent.OnOutsideClick(SampleItems, s)
  {
  }

  /** The state after a sequence of events, one at a time. */
  function Run(s: State, events: seq<Event>): (r: State)
    requires Inv(s)
    ensures Inv(r)
    decreases |events|
  {
    if events == [] then s else Run(Step(s, events[0]), events[1..])
  }
}
