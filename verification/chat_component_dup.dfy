/** `Chat` in ChatComponent_dup.tsx: an outer `open` flag toggling between a
    "default" button and an `ExpandedView` with its own search input.

    `ExpandedView` is rendered only while `open` holds, so closing unmounts it
    and discards its `query` and `showSuggestions`; opening mounts a fresh one.
    Its `suggestions` are derived from `query` (the recomputing effect is
    modelled without its one-render delay). */
module ChatComponentDup {
  import opened Suggest

  /** `sampleItems`. */
  const SampleItems: seq<string> := ["JavaScript", "TypeScript", "React"]

  /** `open`, and the mounted `ExpandedView`'s `query` and `showSuggestions`. */
  datatype State = State(open: bool, query: string, showSuggestions: bool)

  /** The state on mount: closed. */
  const Init := State(false, "", false)

  /** While closed there is no expanded view, so nothing of its state survives. */
  predicate Inv(s: State) {
    !s.open ==> s.query == "" && !s.showSuggestions
  }

  /** `suggestions`. */
  function Suggestions(s: State): seq<string> {
    Filter(s.query, SampleItems)
  }

  /** The dropdown renders inside the expanded view when
      `showSuggestions && suggestions.length > 0`. */
  predicate DropdownVisible(s: State) {
    s.open && s.showSuggestions && |Suggestions(s)| > 0
  }

  /** Clicking the default view opens the chat, mounting a fresh expanded view. */
  function OnDefaultClick(s: State): (r: State)
    requires Inv(s) && !s.open
    ensures r.open && r.query == "" && !r.showSuggestions && Inv(r)
    ensures !DropdownVisible(r)
  {
    s.(open := true)
  }

  /** A click outside the wrapper closes the chat and unmounts the expanded view. */
  function OnOutsideClick(s: State): (r: State)
    ensures !r.open && Inv(r) && !DropdownVisible(r)
  {
    State(false, "", false)
  }

  /** Typing sets the query and shows suggestions; the dropdown is then
      visible exactly when something matches. */
  function OnChange(s: State, text: string): (r: State)
    requires s.open
    ensures r.open && r.query == text && r.showSuggestions && Inv(r)
    ensures DropdownVisible(r) <==> Filter(text, SampleItems) != []
  {
    s.(query := text, showSuggestions := true)
  }

  /** Focus shows suggestions and keeps the query. */
  function OnFocus(s: State): (r: State)
    requires s.open
    ensures r.open && r.query == s.query && r.showSuggestions && Inv(r)
  {
    s.(showSuggestions := true)
  }

  /** A click on a suggestion puts it in the input and hides the dropdown. */
  function OnSuggestionClick(s: State, suggestion: string): (r: State)
    requires s.open
    ensures r.open && r.query == suggestion && !r.showSuggestions && Inv(r)
    ensures !DropdownVisible(r)
  {
    s.(query := suggestion, showSuggestions := false)
  }

  datatype Event = DefaultClick | OutsideClick | Change(text: string) | Focus | Click(index: nat)

  /** Delivers one event: the default button exists only while closed, the
      input and dropdown only while open. Only the default button opens the
      chat, and a click reaches a suggestion only while the dropdown renders it. */
  function Step(s: State, e: Event): (r: State)
    requires Inv(s)
    ensures Inv(r)
    ensures r.open && !s.open ==> e.DefaultClick?
    ensures e.Click? && DropdownVisible(s) && e.index < |Suggestions(s)| ==>
              r.query == Suggestions(s)[e.index] && !DropdownVisible(r)
    ensures e.Click? && !(DropdownVisible(s) && e.index < |Suggestions(s)|) ==> r == s
  {
    match e
    case DefaultClick => if !s.open then OnDefaultClick(s) else s
    case OutsideClick => OnOutsideClick(s)
    case Change(text) => if s.open then OnChange(s, text) else s
    case Focus => if s.open then OnFocus(s) else s
    case Click(i) =>
      if DropdownVisible(s) && i < |Suggestions(s)| then OnSuggestionClick(s, Suggestions(s)[i]) else s
  }

  /** The state after a sequence of events, one at a time. */
  function Run(s: State, events: seq<Event>): (r: State)
    requires Inv(s)
    ensures Inv(r)
    decreases |events|
  {
    if events == [] then s else Run(Step(s, events[0]), events[1..])
  }

  /** Whatever was typed before, closing and reopening starts from an empty
      query with the dropdown hidden. */
  lemma ReopenStartsEmpty(s: State)
    requires Inv(s)
    ensures var r := Step(Step(s, OutsideClick), DefaultClick);
            r.open && r.query == "" && !DropdownVisible(r)
  {
  }

  /** While closed, no event but the default-button click changes anything. */
  lemma ClosedIgnoresInput(s: State, e: Event)
    requires Inv(s) && !s.open && !e.DefaultClick?
    ensures Step(s, e) == s
  {
  }
}
