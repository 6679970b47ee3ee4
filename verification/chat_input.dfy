/** `ChatInput` (chat/chat-input.tsx) together with the one rule of its parent
    `ChatComponent` (chat/chat-component.tsx): the parent owns `open` and
    `showSuggestions` and closes `open` on a click outside its wrapper; the
    input owns `query`. `filteredSuggestions` is computed from `query` on
    every render. */
module ChatInput {
  import opened Text
  import opened Suggest

  /** `sampleSuggestions`. */
  const SampleSuggestions: seq<string> := ["JavaScript", "TypeScript", "React"]

  datatype State = State(query: string, open: bool, showSuggestions: bool)

  /** The state on mount. */
  const Init := State("", false, false)

  /** `filteredSuggestions`. */
  function Filtered(s: State): seq<string> {
    Filter(s.query, SampleSuggestions)
  }

  /** The render guard: `open && showSuggestions && filteredSuggestions.length > 0`. */
  predicate SuggestionsVisible(s: State) {
    s.open && s.showSuggestions && |Filtered(s)| > 0
  }

  /** Typing sets the query and asks for suggestions; `open` is untouched, so
      the list is then visible exactly when the widget is open and something matches. */
  function OnChange(s: State, text: string): (r: State)
    ensures r.query == text && r.showSuggestions && r.open == s.open
    ensures SuggestionsVisible(r) <==> s.open && Filter(text, SampleSuggestions) != []
  {
    s.(query := text, showSuggestions := true)
  }

  /** Focus opens the widget and changes nothing else. */
  function OnFocus(s: State): (r: State)
    ensures r.open && r.query == s.query && r.showSuggestions == s.showSuggestions
    ensures SuggestionsVisible(r) <==> s.showSuggestions && Filtered(s) != []
  {
    s.(open := true)
  }

  /** A click on a suggestion puts it in the input and hides the suggestions. */
  function OnSuggestionClick(s: State, suggestion: string): (r: State)
    ensures r.query == suggestion && !r.showSuggestions && r.open == s.open
    ensures !SuggestionsVisible(r)
  {
    s.(query := suggestion, showSuggestions := false)
  }

  /** The parent's outside-click hook closes the widget; the query and the
      suggestion flag are kept. */
  function OnOutsideClick(s: State): (r: State)
    ensures !r.open && r.query == s.query && r.showSuggestions == s.showSuggestions
    ensures !SuggestionsVisible(r)
  {
    s.(open := false)
  }

  datatype Event = Change(text: string) | Focus | Click(index: nat) | OutsideClick

  /** Delivers one event; a click reaches a suggestion only while the list
      renders it. Only typing raises the suggestion flag, only focus opens
      the widget, and a click on a rendered suggestion commits it and hides
      the list. */
  function Step(s: State, e: Event): (r: State)
    ensures r.showSuggestions && !s.showSuggestions ==> e.Change?
    ensures r.open && !s.open ==> e.Focus?
    ensures e.Click? && SuggestionsVisible(s) && e.index < |Filtered(s)| ==>
              r.query == Filtered(s)[e.index] && !SuggestionsVisible(r)
    ensures e.Click? && !(SuggestionsVisible(s) && e.index < |Filtered(s)|) ==> r == s
  {
    match e
    case Change(text) => OnChange(s, text)
    case Focus => OnFocus(s)
    case Click(i) =>
      if SuggestionsVisible(s) && i < |Filtered(s)| then OnSuggestionClick(s, Filtered(s)[i]) else s
    case OutsideClick => OnOutsideClick(s)
  }

  /** Every suggestion on screen is a sample suggestion that contains the
      non-blank query case-insensitively. */
  lemma VisibleSuggestionsMatch(s: State, x: string)
    requires SuggestionsVisible(s) && x in Filtered(s)
    ensures x in SampleSuggestions && !IsBlank(s.query) && Matches(x, s.query)
  {
    FilterMembership(s.query, SampleSuggestions, x);
  }

  /** The state after a sequence of events, one at a time. */
  function Run(s: State, events: seq<Event>): State
    decreases |events|
  {
    if events == [] then s else Run(Step(s, events[0]), events[1..])
  }

  /** Once hidden, the suggestions stay hidden over any run of events that
      holds no typing: focus, clicks and outside clicks never bring them back. */
  lemma {:induction false} OnlyTypingShowsSuggestions(s: State, events: seq<Event>)
    requires !s.showSuggestions
    requires forall k :: 0 <= k < |events| ==> !events[k].Change?
    ensures !Run(s, events).showSuggestions
    decreases |events|
  {
    if events != [] {
      assert !events[0].Change?;
      OnlyTypingShowsSuggestions(Step(s, events[0]), events[1..]);
    }
  }

  lemma ScriptIsNotBlank()
    ensures !IsBlank("script")
  {
    NotBlankWithText("script", 0);
  }

  lemma ScriptMatchesJavaScript()
    ensures Matches("JavaScript", "script")
  {
    assert LowerStr("script") == "script";
    assert LowerStr("JavaScript") == "javascript";
    OccurrenceIncluded("javascript", "script", 4);
  }

  lemma ScriptMatchesTypeScript()
    ensures Matches("TypeScript", "script")
  {
    assert LowerStr("script") == "script";
    assert LowerStr("TypeScript") == "typescript";
    OccurrenceIncluded("typescript", "script", 4);
  }

  lemma ScriptMissesReact()
    ensures !Matches("React", "script")
  {
    assert LowerStr("script") == "script";
    assert LowerStr("React") == "react";
    MissingCharNotIncluded("react", "script", 0);
  }

  lemma ScriptKeepTail()
    ensures Keep(["TypeScript", "React"], "script") == ["TypeScript"]
  {
    ScriptMatchesTypeScript();
    ScriptMissesReact();
    assert ["React"][1..] == [];
    assert Keep(["React"], "script") == [];
    assert ["TypeScript", "React"][1..] == ["React"];
  }

  lemma ScriptKeep()
    ensures Keep(["JavaScript", "TypeScript", "React"], "script") == ["JavaScript", "TypeScript"]
  {
    ScriptMatchesJavaScript();
    ScriptKeepTail();
    assert ["JavaScript", "TypeScript", "React"][1..] == ["TypeScript", "React"];
  }

  /** A lower-case query finds mixed-case suggestions: "script" shows
      JavaScript and TypeScript, in that order. */
  lemma ScriptScenario()
    ensures Filter("script", SampleSuggestions) == ["JavaScript", "TypeScript"]
  {
    ScriptIsNotBlank();
    ScriptKeep();
  }
}
