# Suggestion widgets and chat box of grid-portfolio, in Dafny

The portfolio's interactive logic is one suggestion widget, copied with small
variations into several React components, plus a three-view chat box with a
canned assistant. This project models each copy as an immutable state record
with one transition function per UI event, over shared definitions:

- `Text`: ASCII lower-casing, JavaScript `trim` (the ECMAScript white-space and
  line-terminator set), blankness, and `includes` as substring search.
- `Suggest`: the flat suggestion filter. A query that is blank after trimming
  suggests nothing. Otherwise the filter keeps, in input order, the items whose
  lower-cased form contains the lower-cased, untrimmed query.
- `Grouped`: the grouped filter. It filters each group and drops the groups
  left empty. It also holds the flattened numbering that the hover handler
  computes and the Enter handler walks.
- `Navigator`: the highlight index. ArrowDown stops at the last item and
  ArrowUp stops at -1; neither wraps.
- One module per component: `SuggestionsView`, `SearchComponent`,
  `SearchSuggestionExample`, `ChatInput` (with the outside-click rule of its
  parent `ChatComponent`), `ChatComponentDup` and `Chat`.

Each widget module has a `Step` that delivers one event to whatever is
currently rendered. A click or hover reaches a suggestion only while the
panel shows it. The chat textarea exists only outside the default view. An
outside click is an abstract event; where the source's handler first checks
that the panel's ref is attached, it acts only while the panel is rendered.
Callbacks (`onSearch`, `onSuggestionSelect`) are modelled as an optional
string in the handler's outcome.

## Model

| member | source | states |
|---|---|---|
| Text.LowerStr | app/components/suggestions/SuggestionsView.tsx:96 | Lower-casing keeps the length and leaves no upper-case letter. Each upper-case letter becomes its lower-case partner (code point plus 32), and every other character is kept. |
| Text.TrimStart | app/components/search/SearchComponent.tsx:31 | The result is a suffix. Everything dropped is white space, and the result does not start with white space. |
| Text.TrimEnd | app/components/search/SearchComponent.tsx:31 | The result is a prefix. Everything dropped is white space, and the result does not end with white space. |
| Text.TrimEmptyIffBlank | app/components/search/SearchComponent.tsx:31 | `trim() === ""` holds exactly when every character is white space, which is how the model states blankness. |
| Text.BlankLowerStr | app/components/chat/chat-input.tsx:58-61 | Lower-casing a query does not change whether it is blank. |
| Text.IncludesIffOccurs | app/components/search/SearchComponent.tsx:37 | `includes` is true exactly when the needle occurs at some position of the haystack, in both directions. |
| Suggest.Keep | app/components/search/SearchComponent.tsx:36-38 | The kept items form an order-preserving subsequence of the items, and each one matches the query case-insensitively. |
| Suggest.KeepCounts | app/components/search/SearchComponent.tsx:36-38 | Every matching item is kept as often as it occurs, and no non-matching item is kept. |
| Suggest.KeepUnique | app/components/search/SearchComponent.tsx:36-38 | Any subsequence with those counts is the kept list, so the contract determines the result. |
| Suggest.Filter | app/components/search/SearchComponent.tsx:30-40 | A blank query yields no suggestions. Otherwise the suggestions are an order-preserving subsequence of the items, each matching the untrimmed query. |
| Suggest.FilterCounts | app/components/examples/SearchSuggestionExample.tsx:61-71 | A non-blank query keeps every matching item with its multiplicity and nothing else; a blank one keeps nothing. |
| Suggest.FilterCharacterized | app/components/ChatComponent_dup.tsx:49-57 | Any order-preserving subsequence with exactly the matching counts equals the filter's result. |
| Suggest.FilterMembership | app/components/chat/chat-input.tsx:57-62 | A string is suggested exactly when the query is not blank, the string is an item, and it matches. |
| Suggest.FilterLowerQuery | app/components/search/SearchComponent.tsx:37 | Matching ignores the query's case. |
| Suggest.FilterAppend | app/components/search/SearchComponent.tsx:36-38 | The filter distributes over concatenation of item lists. |
| Suggest.MatchNotBlank | app/components/search/SearchComponent.tsx:31-38 | An item that matches a non-blank query is not blank itself. |
| Suggest.SuggestedItemSuggestsItself | app/components/search/SearchComponent.tsx:30-40 | A suggested item, used as the query, is among its own suggestions. |
| Suggest.SubseqMultiset | app/components/search/SearchComponent.tsx:36 | A subsequence never holds an item more often than the original. |
| Navigator.NextIndex | app/components/search/SearchComponent.tsx:60-64 | ArrowDown keeps the index in range and moves it by at most one. It stays put exactly at the last position or beyond, so with no items it stays -1. |
| Navigator.PrevIndex | app/components/search/SearchComponent.tsx:65-67 | ArrowUp yields the previous position, or -1 from 0 or -1, and never leaves the range. |
| Navigator.PressDownClamps | app/components/suggestions/SuggestionsView.tsx:123-127 | k ArrowDown presses land on min(index + k, count - 1) and never wrap. |
| Navigator.PressUpFloors | app/components/suggestions/SuggestionsView.tsx:128-130 | k ArrowUp presses land on max(index - k, -1). |
| Grouped.TotalItems | app/components/suggestions/SuggestionsView.tsx:121 | The `reduce` over group sizes equals the length of the flattened groups. |
| Grouped.FilterEach | app/components/suggestions/SuggestionsView.tsx:93-97 | Each group keeps its title, and its items are filtered like a flat list. |
| Grouped.NonEmptyGroups | app/components/suggestions/SuggestionsView.tsx:98 | The result is an order-preserving subsequence with no empty group, and every non-empty group survives. It flattens to exactly the same items, with their multiplicities, as the input. |
| Grouped.FilterGroups | app/components/suggestions/SuggestionsView.tsx:87-101 | A blank query yields no groups. Otherwise every group shown is non-empty and comes, in order, from filtering the groups, and every non-empty filtered group is shown. |
| Grouped.GroupedAgreesWithFlat | app/components/suggestions/SuggestionsView.tsx:87-101 | Flattening the grouped result gives exactly the flat filter of the flattened groups, so the total is the flat filter's length. |
| Grouped.FilterGroupsTitles | app/components/suggestions/SuggestionsView.tsx:93-98 | The surviving titles keep their relative order. |
| Grouped.HoverIndexResolves | app/components/suggestions/SuggestionsView.tsx:190-192 | The hover index is in range and names the hovered item in the flattened numbering. |
| Grouped.WalkToIndex | app/components/suggestions/SuggestionsView.tsx:133-145 | The nested walk finds an item exactly when the index is within the total, and the item it finds is the one at that flattened position. |
| SuggestionsView.OnChange | app/components/suggestions/SuggestionsView.tsx:168-172 | Typing sets the value and resets the highlight. The panel opens exactly for a non-blank value, so it is visible exactly when some group matches. |
| SuggestionsView.OnFocus | app/components/suggestions/SuggestionsView.tsx:173 | Focus opens the panel only for a non-blank value. The panel is then visible exactly when groups are shown. |
| SuggestionsView.Commit | app/components/suggestions/SuggestionsView.tsx:137-140 | Committing an item sets the value to it, closes the panel, resets the highlight and reports that same item. |
| SuggestionsView.OnSuggestionClick | app/components/suggestions/SuggestionsView.tsx:152-158 | A click commits the item and reports it. The `focus()` call then runs `onFocus` with the value from before the click, so the panel stays open exactly when that old value was non-blank. |
| SuggestionsView.ClickedItemStaysShown | app/components/suggestions/SuggestionsView.tsx:152-158 | A rendered item, once committed as the value, still matches itself, so some group is still shown. |
| SuggestionsView.ClickAt | app/components/suggestions/SuggestionsView.tsx:197 | A click reaches an item exactly when the panel renders it and reports that item. The panel stays visible afterwards and lists the clicked item. |
| SuggestionsView.OnKeyDown | app/components/suggestions/SuggestionsView.tsx:120-150 | Arrows move within the flattened total. Enter commits exactly when the highlight is a flattened position, closing, resetting and reporting that item; otherwise nothing changes. Escape sends `false` for the panel flag and resets the highlight, changing nothing else. The highlight stays in range. |
| SuggestionsView.OnHover | app/components/suggestions/SuggestionsView.tsx:189-198 | Hovering sets the highlight to the item's `globalIndex` position. That position is in range, and the flattened item there is the hovered one. |
| SuggestionsView.OnOutsideClick | app/components/suggestions/SuggestionsView.tsx:103-118 | An outside click hides the panel; with the panel not rendered it changes nothing. |
| SuggestionsView.HoverThenEnter | app/components/suggestions/SuggestionsView.tsx:131-145 | Enter right after hovering an item commits that same item. |
| SuggestionsView.EnterCommitsMatchingItem | app/components/suggestions/SuggestionsView.tsx:131-145 | Whatever Enter commits is an item of the groups that matches the non-blank value. |
| SuggestionsView.Step | app/components/suggestions/SuggestionsView.tsx:181-199 | Every event delivered to the rendered widget keeps the highlight in range. |
| SuggestionsView.RunKeepsInv | app/components/suggestions/SuggestionsView.tsx:82 | From any in-range state, and so from mount, the highlight stays -1 or a valid position. |
| SearchComponent.OnChange | app/components/search/SearchComponent.tsx:96-100 | Typing sets the query, opens the panel unconditionally and resets the highlight. The panel is visible exactly when the filter is non-empty, never for a blank query. |
| SearchComponent.OnFocus | app/components/search/SearchComponent.tsx:101 | Focus opens the panel and changes nothing else. |
| SearchComponent.Commit | app/components/search/SearchComponent.tsx:68-73 | Committing sets the query, closes the panel, resets the highlight and passes the same string to `onSearch`. |
| SearchComponent.OnSuggestionClick | app/components/search/SearchComponent.tsx:80-86 | A click commits the string and passes it to `onSearch`. The `focus()` call then runs `onFocus`, so the panel ends up open. It is visible exactly when the committed string matches some item. |
| SearchComponent.OnKeyDown | app/components/search/SearchComponent.tsx:59-78 | Arrows clamp within the suggestions. Enter at a valid highlight sets the query to that suggestion, closes, resets and reports it; at -1 it does nothing. Escape always clears the panel flag and resets the highlight, changing nothing else. |
| SearchComponent.OnHover | app/components/search/SearchComponent.tsx:128 | Hovering sets the highlight to exactly the hovered position, which holds the hovered suggestion. |
| SearchComponent.OnOutsideClick | app/components/search/SearchComponent.tsx:42-57 | An outside click hides the panel while it is rendered and is otherwise a no-op. |
| SearchComponent.ClickAt | app/components/search/SearchComponent.tsx:114-127 | A click reaches a suggestion exactly when the panel renders it and reports that suggestion. The refocused panel stays visible and lists it. |
| SearchComponent.Step | app/components/search/SearchComponent.tsx:114 | Every delivered event keeps the highlight -1 or a valid position. |
| SearchComponent.Run | app/components/search/SearchComponent.tsx:25 | Over any event sequence from an in-range state, and so from mount, the highlight stays in range. |
| SearchComponent.EnterSearchesMatchingItem | app/components/search/SearchComponent.tsx:68-73 | What Enter passes to `onSearch` is an item matching the non-blank query, and it equals the new query. |
| SearchComponent.TypeArrowEnterScenario | app/components/search/SearchComponent.tsx:30-78 | Typing "an" over Apple, Banana and Orange shows Banana and Orange. One ArrowDown then highlights Banana, and Enter sets the query to Banana, closes the panel and searches for Banana. |
| SearchComponent.UntrimmedQueryScenario | app/components/search/SearchComponent.tsx:31-37 | The query " re" finds "Pure React" but not "React": trim decides only blankness. |
| SearchSuggestionExample.OnKeyDown | app/components/examples/SearchSuggestionExample.tsx:104-127 | Arrows clamp. Enter at a valid highlight sets the query to that suggestion, closes and resets; at -1 it is a no-op. Escape clears the panel flag and resets the highlight, changing nothing else. |
| SearchSuggestionExample.Commit | app/components/examples/SearchSuggestionExample.tsx:116-120 | Committing sets the query to the suggestion, closes the panel and resets the highlight. |
| SearchSuggestionExample.OnSuggestionClick | app/components/examples/SearchSuggestionExample.tsx:134-139 | A click commits the suggestion. The `focus()` call then runs `onFocus`, so the panel ends up open. It is visible exactly when the suggestion matches a sample item. |
| SearchSuggestionExample.ClickAt | app/components/examples/SearchSuggestionExample.tsx:177 | A click on a rendered suggestion puts it in the field and leaves the panel visible, listing it; any other click changes nothing. |
| SearchSuggestionExample.OnFocus | app/components/examples/SearchSuggestionExample.tsx:156 | Focus opens the panel, keeps the query and the highlight, and keeps the highlight in range. |
| SearchSuggestionExample.OnChange | app/components/examples/SearchSuggestionExample.tsx:151-155 | Typing opens the panel and resets the highlight. The dropdown is visible exactly when `sampleItems` has a match. |
| SearchSuggestionExample.OnHover | app/components/examples/SearchSuggestionExample.tsx:178 | Hovering sets the highlight to exactly the hovered position, which holds the hovered suggestion. |
| SearchSuggestionExample.OnOutsideClick | app/components/examples/SearchSuggestionExample.tsx:79-95 | A mouse-down outside hides the rendered panel and keeps the query and the highlight. With the panel not rendered it changes nothing. |
| SearchSuggestionExample.Step | app/components/examples/SearchSuggestionExample.tsx:166-178 | Every event keeps the highlight in range. Clicks and hovers act only on a rendered suggestion, and a hover highlights exactly the hovered position. |
| SearchSuggestionExample.Run | app/components/examples/SearchSuggestionExample.tsx:48-49 | From the initial -1, the highlight never leaves -1 .. suggestions.length - 1. |
| SearchSuggestionExample.AgreesWithSearchComponent | app/components/examples/SearchSuggestionExample.tsx:61-167 | Every handler equals `SearchComponent`'s over `sampleItems`, minus the callback. |
| ChatInput.OnChange | app/components/chat/chat-input.tsx:84-87 | Typing sets the query and `showSuggestions`. The list is then visible exactly when the widget is open and something matches. |
| ChatInput.OnFocus | app/components/chat/chat-input.tsx:89 | Focus sets `open` and changes nothing else. |
| ChatInput.OnSuggestionClick | app/components/chat/chat-input.tsx:34-37 | A click sets the query to the suggestion and hides the list. |
| ChatInput.OnOutsideClick | app/components/chat/chat-component.tsx:17-19 | An outside click closes the widget, which hides the list. |
| ChatInput.VisibleSuggestionsMatch | app/components/chat/chat-input.tsx:100 | A visible suggestion is a sample suggestion matching the non-blank query. |
| ChatInput.OnlyTypingShowsSuggestions | app/components/chat/chat-input.tsx:84-89 | Once hidden, the suggestions stay hidden over any event sequence without typing. |
| ChatInput.Step | app/components/chat/chat-input.tsx:84-100 | Only typing raises `showSuggestions` and only focus opens the widget. A click on a rendered suggestion commits it and hides the list; any other click changes nothing. |
| ChatInput.ScriptScenario | app/components/chat/chat-input.tsx:57-62 | "script" suggests JavaScript and TypeScript, in that order, and not React. |
| ChatComponentDup.OnDefaultClick | app/components/ChatComponent_dup.tsx:28 | Clicking the default view opens a fresh expanded view with an empty query and no dropdown. |
| ChatComponentDup.OnOutsideClick | app/components/ChatComponent_dup.tsx:17 | An outside click closes the chat and discards the expanded view's state. |
| ChatComponentDup.OnChange | app/components/ChatComponent_dup.tsx:74-77 | Typing sets the query and shows suggestions. The dropdown is visible exactly when `sampleItems` has a match. |
| ChatComponentDup.OnFocus | app/components/ChatComponent_dup.tsx:78 | Focus shows suggestions and keeps the query. |
| ChatComponentDup.OnSuggestionClick | app/components/ChatComponent_dup.tsx:105-108 | A click sets the query to the suggestion and hides the dropdown. |
| ChatComponentDup.Step | app/components/ChatComponent_dup.tsx:127-137 | Every event keeps a closed chat free of expanded-view state. Only the default button opens the chat. A click on a rendered suggestion commits it and hides the dropdown; any other click changes nothing. |
| ChatComponentDup.Run | app/components/ChatComponent_dup.tsx:127-137 | Over any events, a closed chat holds no expanded-view state. |
| ChatComponentDup.ReopenStartsEmpty | app/components/ChatComponent_dup.tsx:127-137 | Closing and reopening starts from an empty query with no dropdown. |
| ChatComponentDup.ClosedIgnoresInput | app/components/ChatComponent_dup.tsx:127-137 | While closed, only the default-view click changes anything. |
| Chat.ReplyKindFor | app/components/Chat.tsx:25-35 | The keyword lookup of `mockAIResponse`. Its specification is `Chat.ReplyKindPriority`. |
| Chat.MockReply | app/components/Chat.tsx:20-36 | `mockAIResponse` without its delay: the canned text of the answer `Chat.ReplyKindFor` picks. Specified through `Chat.ReplyKindPriority`. |
| Chat.ReplyKindPriority | app/components/Chat.tsx:26-36 | The canned reply follows keyword priority on the lower-cased message: "project", then "skill", then "help", else the fallback. Each case is an if-and-only-if. |
| Chat.ReplyIgnoresCase | app/components/Chat.tsx:26 | A message and its lower-cased form get the same reply. |
| Chat.ProjectKeywordWins | app/components/Chat.tsx:27-28 | A message containing "Project" anywhere gets the projects reply, whatever else it says. |
| Chat.PromptsGetTheirAnswers | app/components/Chat.tsx:141 | The three canned prompts get the projects, help and skills replies respectively. |
| Chat.Submit | app/components/Chat.tsx:74-88 | A blank input changes nothing. Otherwise exactly one user message with the untrimmed input is appended; the input clears, the chat view opens, loading starts and a reply for that text becomes due. |
| Chat.ReplyArrives | app/components/Chat.tsx:89-102 | The oldest due reply is appended as one assistant message. It answers the submitted text, not the current input, and loading is cleared. |
| Chat.OnKeyDown | app/components/Chat.tsx:67-72 | Enter without Shift on a non-blank input submits; every other key press changes nothing. |
| Chat.OnOutsideClick | app/components/Chat.tsx:56-61 | An outside click returns to the default view and deactivates the input; in the default view it is a no-op. Messages and input are kept. |
| Chat.OnInputChange | app/components/Chat.tsx:63-65 | Typing changes only the draft. Nothing is sent, and the conversation, due replies, invariant and balance are unchanged. |
| Chat.TypedDraftIsSent | app/components/Chat.tsx:63-72 | Typing a non-blank draft and pressing Enter sends exactly that draft, untrimmed. A blank draft is not sent. |
| Chat.OnInboxClick | app/components/Chat.tsx:106-109 | Clicking the inbox opens the suggestions view with the input active. |
| Chat.OnSuggestionClick | app/components/Chat.tsx:111-114 | A prompt click fills the input and activates it. It neither submits nor changes the view. |
| Chat.Step | app/components/Chat.tsx:234-242 | Every delivered event keeps loading only while a reply is due and keeps the conversation's balance. Messages are only ever appended. |
| Chat.RunConserves | app/components/Chat.tsx:84-97 | Over any event sequence, loading implies a due reply and the balance stays the same. The earlier conversation remains a prefix. |
| Chat.UserMessagesBalanceReplies | app/components/Chat.tsx:84-97 | From mount, the number of user messages added equals the number of assistant messages added plus the replies still due. |
| Chat.SubmitThenReply | app/components/Chat.tsx:74-102 | A submit followed by its reply appends exactly the user message and the answer to that text, ends in the chat view, and stops loading. |
| Chat.EnterWhileLoading | app/components/Chat.tsx:67-102 | While a reply to some earlier text is due in the chat view, Send ignores clicks but Enter still submits. The reply to the earlier text then arrives first and clears loading while the reply to the new text is still due. |
| Chat.PromptScenario | app/components/Chat.tsx:106-114 | From an empty chat, inbox then prompt then Send then reply shows exactly that prompt and its answer, in the chat view, with loading over. |

## Left out

- Rendering, styling, framer-motion animation and `scrollIntoView` are not modelled: they change no modelled state. The `focus()` call at the end of each suggestion-click handler is modelled through the input's `onFocus`, which it runs; the mouse-down on the suggestion has already moved focus off the input.
- The DOM boundary test behind outside clicks (`contains`, `document.addEventListener`, `useOnClickOutside`) is not modelled. An outside click is an abstract event.
- The one-second `setTimeout` in `mockAIResponse` is not modelled; the reply arrives as a separate `ReplyDue` event. `Date.now()` ids and `new Date()` timestamps are also left out, so a message is its sender and content.
- The `catch` branch of `handleSubmit` is left out, because the canned lookup cannot throw.
- `Chat`'s `onSendMessage` prop is left out, because the component never calls it.
- Text.Lower: lower-cases ASCII letters only. JavaScript `toLowerCase` also maps other Unicode letters, and those mappings are not modelled.
- React batching and stale closures are not modelled in general. Each event is one transition, applied in order, and reads the current state. The exception is the suggestion click: it is modelled with its batched outcome, where the later `onFocus` update wins, and in SuggestionsView that update uses the value from before the click.
- Effect lag is not modelled. The effect-computed `suggestions` and `filteredGroups` are derived directly from the current query, without the one-render delay.
- Changes of the `items` and `suggestionGroups` props after mount are left out. They are parameters fixed for a run.
- The hover-styling state (`isHovered`) of chat-input.tsx is left out.
- In ChatComponent_dup.tsx, the unused `handleSubmit` and `SearchSuggestions` are left out. Also left out: the inner `SearchInput` being a fresh component type on every render, which costs the input its focus. Focus is not modelled.
- Inner views of Chat.tsx are also fresh component types on each render. The resulting remounts only affect focus, which is not modelled.
- app/components/Chat2.tsx is not part of this model: its input is not bound to its query, so its filter cannot change.
- The layout and configuration files (DynamicGrid.tsx, DemoSection.tsx, Tag.tsx, page.tsx, fonts.ts, tailwind.config.js) are not part of this model.
- SuggestionsView: `value` and `showSuggestions` are props, and no caller of this component is part of this model. The model assumes a parent that passes every `onChange` and `onShowSuggestionsChange` call straight back into those props. `SuggestionsView.RunKeepsInv`, `SuggestionsView.ClickAt` and `SuggestionsView.ClickedItemStaysShown` rely on that assumption.
- SearchSuggestionExample.OnKeyDown: requires the highlight to be in range, because Enter indexes `suggestions[selectedIndex]` without a bounds check. `SearchSuggestionExample.Run` shows that every reachable state meets this.
- SearchComponent.OnKeyDown: requires the highlight to be in range, because Enter indexes `suggestions[selectedIndex]` without a bounds check. `SearchComponent.Run` shows that every reachable state meets this.
- ChatComponentDup.OnChange: requires the chat to be open, because the input exists only inside the mounted expanded view. The same holds for OnFocus and OnSuggestionClick.
