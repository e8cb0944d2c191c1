/**
 * The floating AI assistant window: its conversation state machine, the chat transcript
 * it edits as HTML, and the rule that keeps it open until shutdown.
 */
module AiChat {
  import opened Wrappers
  import opened Text

  // ---------------------------------------------------------------------------------------
  // State machine
  // ---------------------------------------------------------------------------------------

  datatype State = Idle | SetupRequired | WaitingForInput | Processing | ErrorState

  datatype Trigger =
    | ApiKeySet | StartChat | NeedSetup | MessageSent | CancelInput
    | ResponseReceived | ErrorOccurred | Retry | Reset

  /** A transition's source: one state, or `'*'` for every state. */
  datatype Source = From(state: State) | AnyState

  datatype Transition = Transition(trigger: Trigger, source: Source, dest: State)

  const Initial: State := Idle

  /** The declared transitions, in declaration order. */
  const Transitions: seq<Transition> := [
    Transition(ApiKeySet, From(SetupRequired), Idle),
    Transition(StartChat, From(Idle), WaitingForInput),
    Transition(NeedSetup, From(Idle), SetupRequired),
    Transition(MessageSent, From(WaitingForInput), Processing),
    Transition(CancelInput, From(WaitingForInput), Idle),
    Transition(ResponseReceived, From(Processing), Idle),
    Transition(ErrorOccurred, From(Processing), ErrorState),
    Transition(Retry, From(ErrorState), Idle),
    Transition(NeedSetup, From(ErrorState), SetupRequired),
    Transition(Reset, AnyState, Idle)
  ]

  predicate Applies(tr: Transition, s: State, t: Trigger) {
    tr.trigger == t && (tr.source == AnyState || tr.source == From(s))
  }

  /** The first transition of `table` from position `k` on that `t` fires in `s`; `None` is a rejected trigger. */
  function FireFrom(table: seq<Transition>, k: nat, s: State, t: Trigger): Option<State>
    decreases |table| - k
  {
    if k >= |table| then None
    else if Applies(table[k], s, t) then Some(table[k].dest)
    else FireFrom(table, k + 1, s, t)
  }

  /** Firing a trigger; `None` where the state machine raises because `t` is not allowed in `s`. */
  function Fire(s: State, t: Trigger): Option<State> {
    FireFrom(Transitions, 0, s, t)
  }

  /** The same machine written trigger by trigger: where each may fire, and where it leads. */
  function Step(s: State, t: Trigger): Option<State> {
    match t
    case ApiKeySet => if s == SetupRequired then Some(Idle) else None
    case StartChat => if s == Idle then Some(WaitingForInput) else None
    case NeedSetup => if s == Idle || s == ErrorState then Some(SetupRequired) else None
    case MessageSent => if s == WaitingForInput then Some(Processing) else None
    case CancelInput => if s == WaitingForInput then Some(Idle) else None
    case ResponseReceived => if s == Processing then Some(Idle) else None
    case ErrorOccurred => if s == Processing then Some(ErrorState) else None
    case Retry => if s == ErrorState then Some(Idle) else None
    case Reset => Some(Idle)
  }

  /** A table with the declared entries, in the declared order. */
  ghost predicate Declared(tb: seq<Transition>) {
    && |tb| == 10
    && tb[0] == Transition(ApiKeySet, From(SetupRequired), Idle)
    && tb[1] == Transition(StartChat, From(Idle), WaitingForInput)
    && tb[2] == Transition(NeedSetup, From(Idle), SetupRequired)
    && tb[3] == Transition(MessageSent, From(WaitingForInput), Processing)
    && tb[4] == Transition(CancelInput, From(WaitingForInput), Idle)
    && tb[5] == Transition(ResponseReceived, From(Processing), Idle)
    && tb[6] == Transition(ErrorOccurred, From(Processing), ErrorState)
    && tb[7] == Transition(Retry, From(ErrorState), Idle)
    && tb[8] == Transition(NeedSetup, From(ErrorState), SetupRequired)
    && tb[9] == Transition(Reset, AnyState, Idle)
  }

  lemma TransitionsDeclared()
    ensures Declared(Transitions)
  {
  }

  /** Walking a table with the declared entries gives the trigger-by-trigger machine. */
  lemma {:induction false} FireFromDeclared(tb: seq<Transition>, s: State, t: Trigger)
    requires Declared(tb)
    ensures FireFrom(tb, 0, s, t) == Step(s, t)
  {
    var r9 := FireFrom(tb, 9, s, t);
    var r8 := FireFrom(tb, 8, s, t);
    var r7 := FireFrom(tb, 7, s, t);
    var r6 := FireFrom(tb, 6, s, t);
    var r5 := FireFrom(tb, 5, s, t);
    var r4 := FireFrom(tb, 4, s, t);
    var r3 := FireFrom(tb, 3, s, t);
    var r2 := FireFrom(tb, 2, s, t);
    var r1 := FireFrom(tb, 1, s, t);
    assert FireFrom(tb, 10, s, t) == None;
    match t {
      case ApiKeySet =>
      case StartChat =>
      case NeedSetup =>
      case MessageSent =>
      case CancelInput =>
      case ResponseReceived =>
      case ErrorOccurred =>
      case Retry =>
      case Reset =>
    }
  }

  lemma FireIsStep(s: State, t: Trigger)
    ensures Fire(s, t) == Step(s, t)
  {
    TransitionsDeclared();
    FireFromDeclared(Transitions, s, t);
  }

  /**
   * `reset` leads to idle from every state; `api_key_set` fires only in setup_required,
   * `response_received` only in processing, `need_setup` only in idle and error_state.
   */
  lemma TriggerSources(s: State)
    ensures Fire(s, Reset) == Some(Idle)
    ensures Fire(s, ApiKeySet) != None <==> s == SetupRequired
    ensures Fire(s, ResponseReceived) != None <==> s == Processing
    ensures Fire(s, NeedSetup) != None <==> s == Idle || s == ErrorState
    ensures Fire(s, NeedSetup) != None ==> Fire(s, NeedSetup) == Some(SetupRequired)
  {
    FireIsStep(s, Reset);
    FireIsStep(s, ApiKeySet);
    FireIsStep(s, ResponseReceived);
    FireIsStep(s, NeedSetup);
  }

  /** The two transitions `send_message` takes from idle to processing. */
  lemma StartAndSend()
    ensures Fire(Idle, StartChat) == Some(WaitingForInput)
    ensures Fire(WaitingForInput, MessageSent) == Some(Processing)
  {
    FireIsStep(Idle, StartChat);
    FireIsStep(WaitingForInput, MessageSent);
  }

  /** The states reached by firing `triggers` one after another, `None` once one is rejected. */
  function Run(s: State, triggers: seq<Trigger>): Option<State>
    decreases |triggers|
  {
    if triggers == [] then Some(s)
    else match Fire(s, triggers[0])
      case None => None
      case Some(next) => Run(next, triggers[1..])
  }

  /** Every state is reachable from the initial one, and idle is reachable from every state. */
  lemma EveryStateReachable(s: State)
    ensures exists path :: Run(Initial, path) == Some(s)
    ensures Run(s, [Reset]) == Some(Idle)
  {
    FireIsStep(s, Reset);
    FireIsStep(Idle, StartChat);
    FireIsStep(Idle, NeedSetup);
    FireIsStep(WaitingForInput, MessageSent);
    FireIsStep(Processing, ErrorOccurred);
    assert [Reset][1..] == [];
    assert [ErrorOccurred][1..] == [] && [MessageSent][1..] == [];
    assert [StartChat][1..] == [] && [NeedSetup][1..] == [];
    assert [MessageSent, ErrorOccurred][1..] == [ErrorOccurred];
    assert [StartChat, MessageSent][1..] == [MessageSent];
    assert [StartChat, MessageSent, ErrorOccurred][1..] == [MessageSent, ErrorOccurred];
    assert Run(Processing, [ErrorOccurred]) == Some(ErrorState);
    assert Run(WaitingForInput, [MessageSent, ErrorOccurred]) == Some(ErrorState);
    assert Run(WaitingForInput, [MessageSent]) == Some(Processing);
    match s
    case Idle => assert Run(Initial, []) == Some(s);
    case SetupRequired => assert Run(Initial, [NeedSetup]) == Some(s);
    case WaitingForInput => assert Run(Initial, [StartChat]) == Some(s);
    case Processing => assert Run(Initial, [StartChat, MessageSent]) == Some(s);
    case ErrorState => assert Run(Initial, [StartChat, MessageSent, ErrorOccurred]) == Some(s);
  }

  // ---------------------------------------------------------------------------------------
  // Auto-summary
  // ---------------------------------------------------------------------------------------

  /** After a reply, the conversation is summarised at every tenth message from the threshold on. */
  predicate ShouldAutoSummarize(messageCount: nat, threshold: int): (r: bool)
    ensures r ==> messageCount >= threshold
    ensures r ==> messageCount == 0 || messageCount >= 10
  {
    messageCount >= threshold && messageCount % 10 == 0
  }

  /** Summaries come exactly ten messages apart once the threshold is reached. */
  lemma AutoSummarizeEveryTen(n: nat, k: nat, threshold: int)
    requires ShouldAutoSummarize(n, threshold)
    ensures ShouldAutoSummarize(n + 10, threshold)
    ensures 0 < k < 10 ==> !ShouldAutoSummarize(n + k, threshold)
  {
  }

  // ---------------------------------------------------------------------------------------
  // Transcript
  // ---------------------------------------------------------------------------------------

  /** The opening of every message block `add_message` writes. */
  const MessageMarker: string := "<div style=\"background-color:"

  /** No position opens and closes a block at once. */
  lemma DivTagsExclusive(content: string, pos: int)
    ensures !(OccursAt(content, pos, "<div") && OccursAt(content, pos, "</div>"))
  {
    if OccursAt(content, pos, "<div") && pos + 6 <= |content| {
      assert content[pos + 1] == content[pos..pos + 4][1];
      assert content[pos..pos + 6][1] != '/';
    }
  }

  /** How one position moves the `<div>` nesting count while looking for the end of a block. */
  function DivStep(content: string, pos: int): int {
    if OccursAt(content, pos, "<div") then 1
    else if OccursAt(content, pos, "</div>") then -1
    else 0
  }

  /** The nesting count after the positions from `start` up to, not including, `pos`. */
  ghost function Depth(content: string, start: int, pos: int): int
    decreases pos - start
  {
    if pos <= start then 0 else Depth(content, start, pos - 1) + DivStep(content, pos - 1)
  }

  /** The `</div>` at `end` closes the block opened at `start`. */
  ghost predicate ClosesAt(content: string, start: int, end: int) {
    start <= end && OccursAt(content, end, "</div>") && Depth(content, start, end) == 1
  }

  ghost predicate FirstClose(content: string, start: int, end: int) {
    ClosesAt(content, start, end) && forall p :: start <= p < end ==> !ClosesAt(content, start, p)
  }

  /** A block closes only once: the first closing tag is unique. */
  lemma FirstCloseUnique(content: string, start: int, end: int)
    requires FirstClose(content, start, end)
    ensures forall e :: FirstClose(content, start, e) ==> e == end
  {
  }

  /**
   * What `remove_last_message` makes of the transcript: without the last message block,
   * or unchanged when there is none or it never closes.
   */
  ghost predicate RemovesLastMessage(content: string, r: string) {
    var start := RFind(content, MessageMarker);
    && (start == -1 ==> r == content)
    && (start >= 0 && (forall e :: start <= e < |content| ==> !ClosesAt(content, start, e)) ==> r == content)
    && (forall e :: start >= 0 && FirstClose(content, start, e) ==> r == content[..start] + content[e + 6..])
  }

  method WithoutLastMessage(content: string) returns (r: string)
    ensures RemovesLastMessage(content, r)
  {
    var start := RFind(content, MessageMarker);
    if start == -1 {
      return content;
    }
    var count := 0;
    var pos := start;
    while pos < |content|
      invariant start <= pos <= |content|
      invariant count == Depth(content, start, pos)
      invariant forall p :: start <= p < pos ==> !ClosesAt(content, start, p)
    {
      DivTagsExclusive(content, pos);
      if OccursAt(content, pos, "<div") {
        count := count + 1;
      } else if OccursAt(content, pos, "</div>") {
        count := count - 1;
        if count == 0 {
          assert FirstClose(content, start, pos);
          FirstCloseUnique(content, start, pos);
          return content[..start] + content[pos + 6..];
        }
      }
      pos := pos + 1;
    }
    assert forall e :: start <= e < |content| && ClosesAt(content, start, e) ==> e < pos;
    return content;
  }

  /** The fixed text of a message block around its sender, timestamp and message. */
  const BlockStyle: string := "; border-radius: 5px; padding: 8px; margin: 5px 0;\">\n    <b>"
  const SenderEnd: string := "</b> <span style=\"color: #aaa; font-size: 10px;\">["
  const StampEnd: string := "]</span><br/>\n    "
  const BlockEnd: string := "\n</div>\n"

  /**
   * The HTML block `add_message` appends for one message: it opens with the marker that
   * `remove_last_message` looks for and ends with the message and the closing tag.
   */
  function MessageHtml(sender: string, message: string, color: string, timestamp: string): (r: string)
    ensures |r| > |MessageMarker| && r[1..1 + |MessageMarker|] == MessageMarker
    ensures |r| >= |message| + |BlockEnd|
    ensures r[|r| - |BlockEnd| - |message|..] == message + BlockEnd
  {
    var r := "\n" + MessageMarker + " " + color + BlockStyle + sender + SenderEnd + timestamp + StampEnd + message + BlockEnd;
    assert forall k :: 0 <= k < |MessageMarker| ==> r[1 + k] == MessageMarker[k];
    r
  }

  const ThinkingText: string := "\U{1F914} Thinking..."

  // ---------------------------------------------------------------------------------------
  // The window
  // ---------------------------------------------------------------------------------------

  datatype ChatEffect =
    | ApiKeyDialog
    | WorkerStarted(message: string, conversationId: Option<string>)
    | Summarized(conversation: string)
    | CannotCloseNotice

  class FloatingAIChat {
    var state: State
    var display: string
    var conversationId: Option<string>
    var allowClose: bool
    /** What the window asked of the outside world, oldest first. */
    var effects: seq<ChatEffect>

    constructor()
      ensures state == Initial && display == "" && conversationId == None && !allowClose && effects == []
    {
      state := Initial;
      display := "";
      conversationId := None;
      allowClose := false;
      effects := [];
    }

    /** Firing a trigger; `false` where the state machine raises and the caller stops. */
    method FireTrigger(t: Trigger) returns (ok: bool)
      modifies this
      ensures ok <==> Fire(old(state), t) != None
      ensures state == (if ok then Fire(old(state), t).value else old(state))
      ensures display == old(display) && conversationId == old(conversationId)
      ensures allowClose == old(allowClose) && effects == old(effects)
    {
      var next := Fire(state, t);
      ok := next != None;
      if ok {
        state := next.value;
      }
    }

    method AddMessage(sender: string, message: string, color: string, timestamp: string)
      modifies this
      ensures display == old(display) + MessageHtml(sender, message, color, timestamp)
      ensures state == old(state) && conversationId == old(conversationId)
      ensures allowClose == old(allowClose) && effects == old(effects)
    {
      display := display + MessageHtml(sender, message, color, timestamp);
    }

    /** `remove_last_message` */
    method RemoveLastMessage()
      modifies this
      ensures RemovesLastMessage(old(display), display)
      ensures state == old(state) && conversationId == old(conversationId)
      ensures allowClose == old(allowClose) && effects == old(effects)
    {
      display := WithoutLastMessage(display);
    }

    /**
     * `send_message`: a blank message does nothing and a missing key opens the key dialog;
     * otherwise idle goes through waiting_for_input to processing, the message and a
     * placeholder reply are shown, and the worker starts.
     */
    method SendMessage(input: string, hasKey: bool, timestamp: string)
      modifies this
      ensures IsBlank(input) ==> state == old(state) && effects == old(effects) && display == old(display)
      ensures !IsBlank(input) && !hasKey ==>
                state == old(state) && effects == old(effects) + [ApiKeyDialog] && display == old(display)
      ensures !IsBlank(input) && hasKey ==>
                && state == (if old(state) == Idle || old(state) == WaitingForInput then Processing else old(state))
                && display == old(display) + MessageHtml("You", Strip(input), "#4d4d6d", timestamp)
                                           + MessageHtml("AI", ThinkingText, "#5d5d3d", timestamp)
                && effects == old(effects) + [WorkerStarted(Strip(input), old(conversationId))]
      ensures conversationId == old(conversationId) && allowClose == old(allowClose)
    {
      StripEmptyIffBlank(input);
      if IsBlank(input) {
        return;
      }
      var message := Strip(input);
      if !hasKey {
        effects := effects + [ApiKeyDialog];
        return;
      }
      ghost var state0 := state;
      StartAndSend();
      if state == Idle {
        var _ := FireTrigger(StartChat);
      }
      if state == WaitingForInput {
        var _ := FireTrigger(MessageSent);
      }
      assert state == (if state0 == Idle || state0 == WaitingForInput then Processing else state0);
      AddMessage("You", message, "#4d4d6d", timestamp);
      AddMessage("AI", ThinkingText, "#5d5d3d", timestamp);
      effects := effects + [WorkerStarted(message, conversationId)];
    }

    /**
     * `handle_ai_response`: the placeholder gives way to the reply, a new conversation id
     * is adopted, `response_received` fires (stopping here when it is rejected), and a long
     * enough conversation is summarised. `messageCount` and `threshold` are what the
     * database and the settings report.
     */
    method HandleAiResponse(response: string, newConversationId: Option<string>, messageCount: nat,
                            threshold: int, timestamp: string) returns (ok: bool)
      modifies this
      ensures exists shown :: RemovesLastMessage(old(display), shown)
                && display == shown + MessageHtml("AI", response, "#4d6d4d", timestamp)
      ensures conversationId == (if newConversationId.Some? then newConversationId else old(conversationId))
      ensures ok <==> old(state) == Processing
      ensures state == (if ok then Idle else old(state))
      ensures var summarize := ok && conversationId.Some? && conversationId.value != ""
                               && ShouldAutoSummarize(messageCount, threshold);
        effects == old(effects) + (if summarize then [Summarized(conversationId.value)] else [])
      ensures allowClose == old(allowClose)
    {
      RemoveLastMessage();
      ghost var shown := display;
      AddMessage("AI", response, "#4d6d4d", timestamp);
      if newConversationId.Some? {
        conversationId := newConversationId;
      }
      FireIsStep(old(state), ResponseReceived);
      ok := FireTrigger(ResponseReceived);
      if !ok {
        return;
      }
      if conversationId.Some? && conversationId.value != "" && ShouldAutoSummarize(messageCount, threshold) {
        effects := effects + [Summarized(conversationId.value)];
      }
    }

    /** `handle_ai_error`: the placeholder gives way to the error, and processing fails. */
    method HandleAiError(error: string, timestamp: string) returns (ok: bool)
      modifies this
      ensures exists shown :: RemovesLastMessage(old(display), shown)
                && display == shown + MessageHtml("AI", "\U{274C} Error: " + error, "#6d4d4d", timestamp)
      ensures ok <==> old(state) == Processing
      ensures state == (if ok then ErrorState else old(state))
      ensures conversationId == old(conversationId) && allowClose == old(allowClose) && effects == old(effects)
    {
      RemoveLastMessage();
      ghost var shown := display;
      AddMessage("AI", "\U{274C} Error: " + error, "#6d4d4d", timestamp);
      FireIsStep(old(state), ErrorOccurred);
      ok := FireTrigger(ErrorOccurred);
    }

    /** `allow_closing`, called during shutdown. */
    method AllowClosing()
      modifies this
      ensures allowClose
      ensures state == old(state) && display == old(display)
      ensures conversationId == old(conversationId) && effects == old(effects)
    {
      allowClose := true;
    }

    /** `closeEvent`: accepted only once closing is allowed; otherwise the user is told why not. */
    method CloseEvent() returns (accepted: bool)
      modifies this
      ensures accepted <==> allowClose
      ensures effects == old(effects) + (if accepted then [] else [CannotCloseNotice])
      ensures state == old(state) && display == old(display)
      ensures conversationId == old(conversationId) && allowClose == old(allowClose)
    {
      accepted := allowClose;
      if !accepted {
        effects := effects + [CannotCloseNotice];
      }
    }
  }
}
