/** `SuggestionsView`: a text input over titled suggestion groups with
    keyboard navigation across the flattened groups.

    `value` and `showSuggestions` are props owned by the parent; the parent is
    modelled as passing every `onChange` and `onShowSuggestionsChange` call
    straight back, so both live in the state record here. `filteredGroups` is
    derived from `value` (the effect that recomputes it is modelled without its
    one-render delay). */
module SuggestionsView {
  import opened Text
  import opened Suggest
  import opened Options
  import opened Grouped
  import opened Navigator

  datatype State = State(value: string, show: bool, selected: int)

  /** A handler's effect: the next state, and the string passed to
      `onSuggestionSelect` when the handler calls it. */
  datatype Outcome = Outcome(next: State, selectedItem: Option<string>)

  /** The state on mount: nothing highlighted. */
  function Init(value: string, show: bool): State {
    State(value, show, -1)
  }

  /** `filteredGroups`. */
  function Shown(groups: seq<Group>, s: State): seq<Group> {
    FilterGroups(s.value, groups)
  }

  /** `totalSuggestions`: items across all shown groups. */
  function Count(groups: seq<Group>, s: State): nat {
    TotalItems(Shown(groups, s))
  }

  /** The highlight is "none" or a position in the flattened shown groups. */
  predicate Inv(groups: seq<Group>, s: State) {
    InRange(s.selected, Count(groups, s))
  }

  /** The render guard: `showSuggestions && filteredGroups.length > 0`. */
  predicate PanelVisible(groups: seq<Group>, s: State) {
    s.show && |Shown(groups, s)| > 0
  }

  /** Typing replaces the value, opens the panel only for a non-blank value,
      and drops the highlight. The panel is then visible exactly when some
      group has a match. */
  function OnChange(groups: seq<Group>, s: State, text: string): (r: State)
    ensures r.value == text && r.selected == -1
    ensures r.show <==> !IsBlank(text)
    ensures Inv(groups, r)
    ensures PanelVisible(groups, r) <==> FilterGroups(text, groups) != []
  {
    State(text, !IsBlank(text), -1)
  }

  /** Focus opens the panel only when the current value is non-blank; the
      panel is then visible exactly when something matches. */
  function OnFocus(groups: seq<Group>, s: State): (r: State)
    ensures r.value == s.value && r.selected == s.selected
    ensures r.show <==> !IsBlank(s.value)
    ensures Inv(groups, s) ==> Inv(groups, r)
    ensures PanelVisible(groups, r) <==> Shown(groups, s) != []
  {
    s.(show := !IsBlank(s.value))
  }

  /** What Enter and `handleSuggestionClick` both do: the value becomes the
      chosen string, the panel closes, the highlight resets, and the same
      string goes to `onSuggestionSelect`. */
  function Commit(groups: seq<Group>, s: State, item: string): (r: Outcome)
    ensures r.selectedItem == Some(r.next.value) && r.next.value == item
    ensures !r.next.show && r.next.selected == -1 && Inv(groups, r.next)
  {
    Outcome(State(item, false, -1), Some(item))
  }

  /** `handleSuggestionClick`: the commit, then `inputRef.current?.focus()`.
      The mouse-down on the item has moved focus off the input, so the call
      runs the input's `onFocus` within the same handler. That closure still
      holds the value from before the click, so the batched updates leave the
      panel open exactly when the old value was non-blank. */
  function OnSuggestionClick(groups: seq<Group>, s: State, item: string): (r: Outcome)
    ensures r.selectedItem == Some(r.next.value) && r.next.value == item
    ensures r.next.show <==> !IsBlank(s.value)
    ensures r.next.selected == -1 && Inv(groups, r.next)
  {
    var c := Commit(groups, s, item);
    c.(next := c.next.(show := !IsBlank(s.value)))
  }

  /** `handleKeyDown`. Arrows move the highlight within the flattened shown
      groups; Enter on a highlighted position commits the item at that
      flattened position (and is ignored when nothing is highlighted or no
      item has that position); Escape closes the panel and drops the highlight. */
  function OnKeyDown(groups: seq<Group>, s: State, key: Key): (r: Outcome)
    ensures Inv(groups, s) ==> Inv(groups, r.next)
    ensures key == ArrowDown ==> r.next == s.(selected := NextIndex(s.selected, Count(groups, s)))
    ensures key == ArrowUp ==> r.next == s.(selected := PrevIndex(s.selected))
    ensures r.selectedItem.Some? <==> key == Enter && 0 <= s.selected < Count(groups, s)
    ensures r.selectedItem.Some? ==>
              && r.selectedItem.value == Flatten(Shown(groups, s))[s.selected]
              && r.next == State(r.selectedItem.value, false, -1)
    ensures key == Enter && r.selectedItem.None? ==> r.next == s
    ensures key == Escape ==> r.next == s.(show := false, selected := -1) && !PanelVisible(groups, r.next)
    ensures key == OtherKey ==> r.next == s
  {
    var n := Count(groups, s);
    match key
    case ArrowDown => Outcome(s.(selected := NextIndex(s.selected, n)), None)
    case ArrowUp => Outcome(s.(selected := PrevIndex(s.selected)), None)
    case Enter =>
      var flat := Flatten(Shown(groups, s));
      if 0 <= s.selected < |flat| then Commit(groups, s, flat[s.selected])
      else Outcome(s, None)
    case Escape => Outcome(s.(show := false, selected := -1), None)
    case OtherKey => Outcome(s, None)
  }

  /** `onMouseEnter` on item `itemIndex` of shown group `groupIndex`: the
      highlight moves to its hover index, which names that same item in the
      flattened list the Enter walk uses. */
  function OnHover(groups: seq<Group>, s: State, groupIndex: nat, itemIndex: nat): (r: State)
    requires groupIndex < |Shown(groups, s)| && itemIndex < |Shown(groups, s)[groupIndex].items|
    ensures r.value == s.value && r.show == s.show
    ensures r.selected == GlobalIndex(Shown(groups, s), groupIndex, itemIndex)
    ensures 0 <= r.selected < Count(groups, r)
    ensures Flatten(Shown(groups, s))[r.selected] == Shown(groups, s)[groupIndex].items[itemIndex]
  {
    HoverIndexResolves(Shown(groups, s), groupIndex, itemIndex);
    s.(selected := GlobalIndex(Shown(groups, s), groupIndex, itemIndex))
  }

  /** A mouse-down outside the input and the panel closes the panel; the
      listener only acts while the panel is rendered (`suggestionsRef.current`
      is set), and neither the value nor the highlight changes. */
  function OnOutsideClick(groups: seq<Group>, s: State): (r: State)
    ensures r.value == s.value && r.selected == s.selected
    ensures !PanelVisible(groups, r)
    ensures !PanelVisible(groups, s) ==> r == s
  {
    if PanelVisible(groups, s) then s.(show := false) else s
  }

  /** Hovering an item and pressing Enter commits exactly that item. */
  lemma HoverThenEnter(groups: seq<Group>, s: State, groupIndex: nat, itemIndex: nat)
    requires groupIndex < |Shown(groups, s)| && itemIndex < |Shown(groups, s)[groupIndex].items|
    ensures OnKeyDown(groups, OnHover(groups, s, groupIndex, itemIndex), Enter).selectedItem
            == Some(Shown(groups, s)[groupIndex].items[itemIndex])
  {
    HoverIndexResolves(Shown(groups, s), groupIndex, itemIndex);
  }

  /** Whatever Enter commits is one of the groups' items and matches the
      typed value case-insensitively. */
  lemma EnterCommitsMatchingItem(groups: seq<Group>, s: State)
    ensures var r := OnKeyDown(groups, s, Enter);
            r.selectedItem.Some? ==>
              && r.selectedItem.value in Flatten(groups)
              && !IsBlank(s.value)
              && Matches(r.selectedItem.value, s.value)
  {
    var r := OnKeyDown(groups, s, Enter);
    GroupedAgreesWithFlat(s.value, groups);
    if r.selectedItem.Some? {
      FilterMembership(s.value, Flatten(groups), r.selectedItem.value);
    }
  }

  /** A rendered item, committed as the value, is still shown: it matches
      itself and is one of the groups' items. */
  lemma ClickedItemStaysShown(groups: seq<Group>, s: State, groupIndex: nat, itemIndex: nat)
    requires groupIndex < |Shown(groups, s)| && itemIndex < |Shown(groups, s)[groupIndex].items|
    ensures var item := Shown(groups, s)[groupIndex].items[itemIndex];
            && !IsBlank(s.value)
            && item in Flatten(FilterGroups(item, groups))
            && FilterGroups(item, groups) != []
  {
    var item := Shown(groups, s)[groupIndex].items[itemIndex];
    HoverIndexResolves(Shown(groups, s), groupIndex, itemIndex);
    GroupedAgreesWithFlat(s.value, groups);
    SuggestedItemSuggestsItself(s.value, Flatten(groups), item);
    GroupedAgreesWithFlat(item, groups);
  }

  /** A click on item `itemIndex` of shown group `groupIndex`, which only the
      rendered panel can receive. The refocused panel stays visible and lists
      the clicked item. */
  function ClickAt(groups: seq<Group>, s: State, groupIndex: nat, itemIndex: nat): (r: Outcome)
    ensures Inv(groups, s) ==> Inv(groups, r.next)
    ensures r.selectedItem.Some? <==>
              && PanelVisible(groups, s)
              && groupIndex < |Shown(groups, s)|
              && itemIndex < |Shown(groups, s)[groupIndex].items|
    ensures r.selectedItem.Some? ==>
              && r.selectedItem.value == Shown(groups, s)[groupIndex].items[itemIndex]
              && r.next.value == r.selectedItem.value
              && PanelVisible(groups, r.next)
              && r.selectedItem.value in Flatten(Shown(groups, r.next))
    ensures r.selectedItem.None? ==> r.next == s
  {
    var shown := Shown(groups, s);
    if PanelVisible(groups, s) && groupIndex < |shown| && itemIndex < |shown[groupIndex].items|
    then
      ClickedItemStaysShown(groups, s, groupIndex, itemIndex);
      OnSuggestionClick(groups, s, shown[groupIndex].items[itemIndex])
    else Outcome(s, None)
  }

  /** The events the rendered widget can receive. Clicks and hovers name an
      item by its group and position among the shown groups. */
  datatype Event =
    | Change(text: string)
    | Focus
    | KeyDown(key: Key)
    | Click(groupIndex: nat, itemIndex: nat)
    | Hover(groupIndex: nat, itemIndex: nat)
    | OutsideClick

  /** Delivers one event. Clicks and hovers reach an item only while the panel
      renders it; any other click or hover changes nothing. */
  function Step(groups: seq<Group>, s: State, e: Event): (r: Outcome)
    ensures Inv(groups, s) ==> Inv(groups, r.next)
  {
    var shown := Shown(groups, s);
    match e
    case Change(text) => Outcome(OnChange(groups, s, text), None)
    case Focus => Outcome(OnFocus(groups, s), None)
    case KeyDown(key) => OnKeyDown(groups, s, key)
    case Click(gi, ii) => ClickAt(groups, s, gi, ii)
    case Hover(gi, ii) =>
      if PanelVisible(groups, s) && gi < |shown| && ii < |shown[gi].items|
      then Outcome(OnHover(groups, s, gi, ii), None)
      else Outcome(s, None)
    case OutsideClick => Outcome(OnOutsideClick(groups, s), None)
  }

  /** The state after a sequence of events, one at a time. */
  function Run(groups: seq<Group>, s: State, events: seq<Event>): State
    decreases |events|
  {
    if events == [] then s else Run(groups, Step(groups, s, events[0]).next, events[1..])
  }

  /** From mount on, the highlight is always -1 or a position in the
      flattened shown groups, whatever the user does. */
  lemma {:induction false} RunKeepsInv(groups: seq<Group>, s: State, events: seq<Event>)
    requires Inv(groups, s)
    ensures Inv(groups, Run(groups, s, events))
    decreases |events|
  {
    if events != [] {
      RunKeepsInv(groups, Step(groups, s, events[0]).next, events[1..]);
    }
  }
}
