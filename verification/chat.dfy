/** `Chat` in Chat.tsx: a three-view chat box (inbox, suggestions, chat) with
    a canned assistant that answers by keyword.

    The reply's one-second delay is modelled as a separate `ReplyArrives`
    event. Submitted texts wait in `pending` in submission order; each reply
    is computed from the text that was submitted, not from the input field
    at the time the reply arrives. Message ids and timestamps are left out:
    a message is its sender and its content. */
module Chat {
  import opened Text
  import opened Navigator

  datatype View = Default | Suggestions | ChatView
  datatype Sender = User | Assistant
  datatype Message = Message(sender: Sender, content: string)

  /** The four canned answers of `mockAIResponse`. */
  datatype ReplyKind = ProjectsReply | SkillsReply | HelpReply | FallbackReply

  function ReplyText(kind: ReplyKind): string {
    match kind
    case ProjectsReply =>
      "I've worked on several interesting projects, including a real-time collaboration platform and an AI-powered analytics dashboard. Would you like to know more about any specific project?"
    case SkillsReply =>
      "My key skills include full-stack development, AI/ML integration, and cloud architecture. I'm particularly experienced with React, Node.js, and Python."
    case HelpReply =>
      "I can help you with project planning, technical consulting, or development work. What specific area are you interested in?"
    case FallbackReply =>
      "That's an interesting point. Could you tell me more about what you're looking to achieve?"
  }

  /** The keyword lookup of `mockAIResponse` on the lower-cased message:
      "project" wins over "skill", which wins over "help"; anything else gets
      the fallback. */
  function ReplyKindFor(message: string): ReplyKind {
    var lower := LowerStr(message);
    if Includes(lower, "project") then ProjectsReply
    else if Includes(lower, "skill") then SkillsReply
    else if Includes(lower, "help") then HelpReply
    else FallbackReply
  }

  /** Which answer a message gets, as a priority list over keywords that
      may appear anywhere in the message, in any case. */
  lemma ReplyKindPriority(message: string)
    ensures ReplyKindFor(message) == ProjectsReply <==> Includes(LowerStr(message), "project")
    ensures ReplyKindFor(message) == SkillsReply <==>
              !Includes(LowerStr(message), "project") && Includes(LowerStr(message), "skill")
    ensures ReplyKindFor(message) == HelpReply <==>
              && !Includes(LowerStr(message), "project") && !Includes(LowerStr(message), "skill")
              && Includes(LowerStr(message), "help")
    ensures ReplyKindFor(message) == FallbackReply <==>
              && !Includes(LowerStr(message), "project") && !Includes(LowerStr(message), "skill")
              && !Includes(LowerStr(message), "help")
  {
  }

  /** `mockAIResponse` without its delay. */
  function MockReply(message: string): string {
    ReplyText(ReplyKindFor(message))
  }

  /** The lookup ignores case: a message and its lower-cased form get the same answer. */
  lemma ReplyIgnoresCase(message: string)
    ensures ReplyKindFor(LowerStr(message)) == ReplyKindFor(message)
  {
    LowerStrIdempotent(message);
  }

  /** Lower-casing distributes over concatenation. */
  lemma {:induction false} LowerStrAppend(a: string, b: string)
    ensures LowerStr(a + b) == LowerStr(a) + LowerStr(b)
  {
    assert forall i :: 0 <= i < |a + b| ==> LowerStr(a + b)[i] == (LowerStr(a) + LowerStr(b))[i];
  }

  /** A message mentioning "Project" anywhere, in any surrounding text, gets
      the projects answer, whatever other keywords it holds. */
  lemma ProjectKeywordWins(before: string, after: string)
    ensures ReplyKindFor(before + "Project" + after) == ProjectsReply
  {
    var m := before + "Project" + after;
    LowerStrAppend(before + "Project", after);
    LowerStrAppend(before, "Project");
    assert LowerStr("Project") == "project";
    var lower := LowerStr(m);
    assert lower == LowerStr(before) + "project" + LowerStr(after);
    assert lower[|before|..|before| + 7] == "project";
    OccurrenceIncluded(lower, "project", |before|);
  }

  /** The canned prompts of the suggestions view. */
  const Prompts: seq<string> := ["Tell me about your projects", "How can I help you?", "What are your skills?"]

  lemma LowerFirstPrompt()
    ensures LowerStr(Prompts[0]) == "tell me about your projects"
  {
  }

  lemma LowerSecondPrompt()
    ensures LowerStr(Prompts[1]) == "how can i help you?"
  {
  }

  lemma LowerThirdPrompt()
    ensures LowerStr(Prompts[2]) == "what are your skills?"
  {
  }

  lemma FirstPromptKeywords()
    ensures Includes("tell me about your projects", "project")
  {
    OccurrenceIncluded("tell me about your projects", "project", 19);
  }

  lemma SecondPromptNoProject()
    ensures !Includes("how can i help you?", "project")
  {
    assert "project"[1] == 'r';
    MissingCharNotIncluded("how can i help you?", "project", 1);
  }

  lemma SecondPromptNoSkill()
    ensures !Includes("how can i help you?", "skill")
  {
    assert "skill"[0] == 's';
    MissingCharNotIncluded("how can i help you?", "skill", 0);
  }

  lemma SecondPromptHelp()
    ensures Includes("how can i help you?", "help")
  {
    OccurrenceIncluded("how can i help you?", "help", 10);
  }

  lemma ThirdPromptNoProject()
    ensures !Includes("what are your skills?", "project")
  {
    assert "project"[0] == 'p';
    MissingCharNotIncluded("what are your skills?", "project", 0);
  }

  lemma ThirdPromptSkill()
    ensures Includes("what are your skills?", "skill")
  {
    OccurrenceIncluded("what are your skills?", "skill", 14);
  }

  lemma FirstPromptAsksProjects()
    ensures ReplyKindFor(Prompts[0]) == ProjectsReply
  {
    LowerFirstPrompt();
    FirstPromptKeywords();
  }

  lemma SecondPromptAsksHelp()
    ensures ReplyKindFor(Prompts[1]) == HelpReply
  {
    LowerSecondPrompt();
    SecondPromptNoProject();
    SecondPromptNoSkill();
    SecondPromptHelp();
  }

  lemma ThirdPromptAsksSkills()
    ensures ReplyKindFor(Prompts[2]) == SkillsReply
  {
    LowerThirdPrompt();
    ThirdPromptNoProject();
    ThirdPromptSkill();
  }

  /** Each canned prompt is answered on its own topic: the projects prompt
      by the projects answer, the help prompt by the help answer, the skills
      prompt by the skills answer. */
  lemma PromptsGetTheirAnswers()
    ensures ReplyKindFor(Prompts[0]) == ProjectsReply
    ensures ReplyKindFor(Prompts[1]) == HelpReply
    ensures ReplyKindFor(Prompts[2]) == SkillsReply
  {
    FirstPromptAsksProjects();
    SecondPromptAsksHelp();
    ThirdPromptAsksSkills();
  }

  /** `view`, `inputMessage`, `isInputActive`, `messages`, `isLoading`, and the
      submitted texts whose replies have not arrived yet. */
  datatype State = State(
    view: View,
    input: string,
    inputActive: bool,
    messages: seq<Message>,
    loading: bool,
    pending: seq<string>)

  /** The state on mount, with the caller's initial messages. */
  function Init(initial: seq<Message>): State {
    State(Default, "", false, initial, false, [])
  }

  /** `loading` is only ever set while some reply is still due. */
  predicate Inv(s: State) {
    s.loading ==> s.pending != []
  }

  /** How many messages `sender` has in `messages`. */
  function CountFrom(messages: seq<Message>, sender: Sender): nat
    decreases |messages|
  {
    if messages == [] then 0
    else CountFrom(messages[..|messages| - 1], sender) + (if messages[|messages| - 1].sender == sender then 1 else 0)
  }

  /** Appending one message adds one to its sender's count and nothing to the other's. */
  lemma CountAppend(messages: seq<Message>, m: Message, sender: Sender)
    ensures CountFrom(messages + [m], sender) == CountFrom(messages, sender) + (if m.sender == sender then 1 else 0)
  {
    assert (messages + [m])[..|messages|] == messages;
  }

  /** User messages minus assistant messages minus replies still due: the
      conversation's balance, which no event changes. */
  function Balance(s: State): int {
    CountFrom(s.messages, User) - CountFrom(s.messages, Assistant) - |s.pending|
  }

  /** The synchronous part of `handleSubmit`: a blank input changes nothing;
      otherwise the untrimmed input becomes one new user message, the input
      clears, the chat view opens and a reply becomes due. */
  function Submit(s: State): (r: State)
    ensures IsBlank(s.input) ==> r == s
    ensures !IsBlank(s.input) ==>
              && r.messages == s.messages + [Message(User, s.input)]
              && r.input == "" && r.view == ChatView && r.loading
              && r.pending == s.pending + [s.input]
              && r.inputActive == s.inputActive
    ensures Inv(s) ==> Inv(r)
    ensures Balance(r) == Balance(s)
  {
    if IsBlank(s.input) then s
    else
      var m := Message(User, s.input);
      CountAppend(s.messages, m, User);
      CountAppend(s.messages, m, Assistant);
      s.(messages := s.messages + [m], input := "", view := ChatView, loading := true,
         pending := s.pending + [s.input])
  }

  /** The delayed part of `handleSubmit`: the oldest due reply is appended as
      an assistant message computed from the text that was submitted, and
      `isLoading` is cleared (even if further replies are still due). */
  function ReplyArrives(s: State): (r: State)
    requires s.pending != []
    ensures r.messages == s.messages + [Message(Assistant, MockReply(s.pending[0]))]
    ensures r.pending == s.pending[1..] && !r.loading
    ensures r.view == s.view && r.input == s.input && r.inputActive == s.inputActive
    ensures Inv(r) && Balance(r) == Balance(s)
  {
    var m := Message(Assistant, MockReply(s.pending[0]));
    CountAppend(s.messages, m, User);
    CountAppend(s.messages, m, Assistant);
    s.(messages := s.messages + [m], pending := s.pending[1..], loading := false)
  }

  /** `handleKeyDown`: Enter without Shift submits when the input is not
      blank; every other key press leaves the state alone. */
  function OnKeyDown(s: State, key: Key, shift: bool): (r: State)
    ensures key == Enter && !shift && !IsBlank(s.input) ==> r == Submit(s)
    ensures !(key == Enter && !shift && !IsBlank(s.input)) ==> r == s
  {
    if key == Enter && !shift && !IsBlank(s.input) then Submit(s) else s
  }

  /** The outside-click hook: outside the default view it returns to the
      default view and deactivates the input; in the default view it does
      nothing. Messages and input text are kept. */
  function OnOutsideClick(s: State): (r: State)
    ensures r.view == Default
    ensures s.view == Default ==> r == s
    ensures s.view != Default ==> !r.inputActive
    ensures r.messages == s.messages && r.input == s.input && r.pending == s.pending && r.loading == s.loading
  {
    if s.view != Default then s.(view := Default, inputActive := false) else s
  }

  /** `handleInputChange`: only the draft changes. Nothing is sent, so the
      view, the conversation, the due replies and the bookkeeping between
      them are as before. */
  function OnInputChange(s: State, text: string): (r: State)
    ensures r.input == text
    ensures r.view == s.view && r.inputActive == s.inputActive
    ensures r.messages == s.messages && r.pending == s.pending && r.loading == s.loading
    ensures Inv(r) <==> Inv(s)
    ensures Balance(r) == Balance(s)
  {
    s.(input := text)
  }

  /** Typing a draft and pressing Enter sends exactly that draft, untrimmed,
      when it is not blank, and leaves the typed state alone when it is. */
  lemma TypedDraftIsSent(s: State, text: string)
    ensures var typed := OnInputChange(s, text);
            var r := OnKeyDown(typed, Enter, false);
            && (!IsBlank(text) ==>
                  r.messages == s.messages + [Message(User, text)] && r.pending == s.pending + [text])
            && (IsBlank(text) ==> r == typed)
  {
  }

  /** `handleInboxClick`: the suggestions view opens with the input active. */
  function OnInboxClick(s: State): (r: State)
    ensures r.view == Suggestions && r.inputActive
    ensures r.messages == s.messages && r.input == s.input && r.pending == s.pending && r.loading == s.loading
  {
    s.(view := Suggestions, inputActive := true)
  }

  /** `handleSuggestionClick`: the prompt fills the input; nothing is sent and
      the view stays. */
  function OnSuggestionClick(s: State, suggestion: string): (r: State)
    ensures r.input == suggestion && r.inputActive
    ensures r.view == s.view && r.messages == s.messages && r.pending == s.pending && r.loading == s.loading
  {
    s.(input := suggestion, inputActive := true)
  }

  datatype Event =
    | OutsideClick
    | InputChange(text: string)
    | KeyDown(key: Key, shift: bool)
    | SendClick
    | InboxClick
    | SuggestionClick(index: nat)
    | ReplyDue

  /** Delivers one event to whatever the current view renders: the textarea
      and Send button exist outside the default view (Send is disabled in the
      chat view while loading), the inbox only in the default view, the
      prompts only in the suggestions view; a reply arrives only when one is due. */
  function Step(s: State, e: Event): (r: State)
    ensures Inv(s) ==> Inv(r)
    ensures Balance(r) == Balance(s)
    ensures s.messages <= r.messages
  {
    match e
    case OutsideClick => OnOutsideClick(s)
    case InputChange(text) => if s.view != Default then OnInputChange(s, text) else s
    case KeyDown(key, shift) => if s.view != Default then OnKeyDown(s, key, shift) else s
    case SendClick =>
      if s.view == Suggestions || (s.view == ChatView && !s.loading) then Submit(s) else s
    case InboxClick => if s.view == Default then OnInboxClick(s) else s
    case SuggestionClick(i) =>
      if s.view == Suggestions && i < |Prompts| then OnSuggestionClick(s, Prompts[i]) else s
    case ReplyDue => if s.pending != [] then ReplyArrives(s) else s
  }

  /** The state after a sequence of events, one at a time. */
  function Run(s: State, events: seq<Event>): State
    decreases |events|
  {
    if events == [] then s else Run(Step(s, events[0]), events[1..])
  }

  /** Over any run the invariant holds, the balance of user messages against
      assistant messages and due replies is unchanged, and the earlier
      conversation is kept as a prefix: messages are only ever appended. */
  lemma {:induction false} RunConserves(s: State, events: seq<Event>)
    requires Inv(s)
    ensures Inv(Run(s, events))
    ensures Balance(Run(s, events)) == Balance(s)
    ensures s.messages <= Run(s, events).messages
    decreases |events|
  {
    if events != [] {
      var t := Step(s, events[0]);
      RunConserves(t, events[1..]);
    }
  }

  /** From mount, the user messages added are as many as the assistant
      messages added plus the replies still due. */
  lemma UserMessagesBalanceReplies(initial: seq<Message>, events: seq<Event>)
    ensures CountFrom(Run(Init(initial), events).messages, User)
            == CountFrom(Run(Init(initial), events).messages, Assistant)
               + |Run(Init(initial), events).pending|
               + (CountFrom(initial, User) - CountFrom(initial, Assistant))
  {
    RunConserves(Init(initial), events);
  }

  /** Submitting a non-blank text and letting the reply arrive appends exactly
      the user message and the answer to that same text, clears the input,
      shows the chat view and ends loading. */
  lemma SubmitThenReply(s: State)
    requires !IsBlank(s.input) && s.pending == []
    ensures var r := ReplyArrives(Submit(s));
            && r.messages == s.messages + [Message(User, s.input), Message(Assistant, MockReply(s.input))]
            && r.input == "" && r.view == ChatView && !r.loading && r.pending == []
  {
  }

  /** While a reply to `p` is due in the chat view the Send button ignores
      clicks, but Enter still submits; the reply to `p` then arrives first and
      clears `isLoading` although the reply to the new text is still due. */
  lemma EnterWhileLoading(s: State, p: string)
    requires s.view == ChatView && s.loading && s.pending == [p] && !IsBlank(s.input)
    ensures Step(s, SendClick) == s
    ensures var t := Step(s, KeyDown(Enter, false));
            && t.pending == [p, s.input]
            && var u := Step(t, ReplyDue);
               && !u.loading && u.pending == [s.input]
               && u.messages == s.messages + [Message(User, s.input), Message(Assistant, MockReply(p))]
  {
  }

  lemma ScenarioOpen()
    ensures Step(Init([]), InboxClick) == State(Suggestions, "", true, [], false, [])
  {
  }

  lemma ScenarioPick(i: nat)
    requires i < |Prompts|
    ensures Step(State(Suggestions, "", true, [], false, []), SuggestionClick(i))
            == State(Suggestions, Prompts[i], true, [], false, [])
  {
  }

  /** No canned prompt is blank. */
  lemma PromptNotBlank(i: nat)
    requires i < |Prompts|
    ensures !IsBlank(Prompts[i])
  {
    assert Prompts[i][0] != ' ' by {
      if i == 0 { assert Prompts[i][0] == 'T'; }
      else if i == 1 { assert Prompts[i][0] == 'H'; }
      else { assert Prompts[i][0] == 'W'; }
    }
    NotBlankWithText(Prompts[i], 0);
  }

  lemma ScenarioSend(t: string)
    requires !IsBlank(t)
    ensures Step(State(Suggestions, t, true, [], false, []), SendClick)
            == State(ChatView, "", true, [Message(User, t)], true, [t])
  {
  }

  lemma ScenarioReply(t: string)
    ensures Step(State(ChatView, "", true, [Message(User, t)], true, [t]), ReplyDue)
            == State(ChatView, "", true, [Message(User, t), Message(Assistant, MockReply(t))], false, [])
  {
  }

  /** A run takes its first event first. */
  lemma RunFirst(s: State, events: seq<Event>)
    requires events != []
    ensures Run(s, events) == Run(Step(s, events[0]), events[1..])
  {
  }

  /** From an empty chat: opening the inbox, picking a canned prompt,
      sending it and letting the reply arrive leaves exactly that prompt and
      its answer on screen, in the chat view, with the input cleared and
      loading over. */
  lemma PromptScenario(i: nat)
    requires i < |Prompts|
    ensures var r := Run(Init([]), [InboxClick, SuggestionClick(i), SendClick, ReplyDue]);
            && r.messages == [Message(User, Prompts[i]), Message(Assistant, MockReply(Prompts[i]))]
            && r.view == ChatView && !r.loading && r.input == "" && r.pending == []
  {
    var s0 := Init([]);
    var s1 := State(Suggestions, "", true, [], false, []);
    var s2 := State(Suggestions, Prompts[i], true, [], false, []);
    var s3 := State(ChatView, "", true, [Message(User, Prompts[i])], true, [Prompts[i]]);
    var s4 := State(ChatView, "", true, [Message(User, Prompts[i]), Message(Assistant, MockReply(Prompts[i]))], false, []);
    ScenarioOpen();
    ScenarioPick(i);
    PromptNotBlank(i);
    ScenarioSend(Prompts[i]);
    ScenarioReply(Prompts[i]);
    var events := [InboxClick, SuggestionClick(i), SendClick, ReplyDue];
    RunFirst(s0, events);
    RunFirst(s1, events[1..]);
    RunFirst(s2, events[2..]);
    RunFirst(s3, events[3..]);
    assert events[3..][1..] == [];
  }
}
