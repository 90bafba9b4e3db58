/**
 * The agent chat panel: a transcript of user and model messages, the input
 * box, a processing flag, the remote chat history, and the mute and
 * listening switches. `handleSend` works in two halves around the awaited
 * agent turn: `BeginSend` is what runs before the `await`, `CompleteSend`
 * what runs after it, and `HandleSend` runs the two around one agent turn.
 * Calls to the host (`onNavigate`), speech output and the speech recogniser
 * are recorded as traces in fields.
 */
module Chat {
  import opened Types
  import opened Text
  import opened Logging
  import opened Agent

  const GREETING := "Shield Protocol Active. Awaiting orders."
  const BACKEND_ERROR := "Error connecting to backend."
  const SUGGESTIONS: seq<string> :=
    ["Status of Cyclone Ditwah?", "Show Florida risks", "Deep dive Tampa", "Find nearest shelters"]
  const SUGGESTION_LIMIT: nat := 5

  datatype Message = Message(role: string, content: string)

  function User(text: string): Message { Message("user", text) }
  function Model(text: string): Message { Message("model", text) }

  /** What the send handler closes over when it reaches the `await`: the
      text, the transcript with the user entry, the history it passes on and
      the mute switch as it was when the handler was created. */
  datatype PendingSend = PendingSend(text: string, newMsgs: seq<Message>, history: seq<Content>, muted: bool)

  /** The model entry a completed send shows: the reply text, or the fixed
      error text when the agent call threw. */
  function ReplyText(reply: Option<AgentResponse>): (r: string)
    ensures reply.None? ==> r == BACKEND_ERROR
    ensures reply.Some? ==> r == reply.value.text
  {
    match reply
    case None => BACKEND_ERROR
    case Some(resp) => resp.text
  }

  /** The transcript after a send that completed: the transcript the
      handler saw, the user entry, and exactly one model entry. */
  function Completed(messages: seq<Message>, text: string, reply: Option<AgentResponse>): (r: seq<Message>)
    ensures |r| == |messages| + 2
    ensures r[..|messages|] == messages
    ensures r[|messages|] == User(text)
    ensures r[|messages| + 1] == Model(ReplyText(reply))
  {
    messages + [User(text)] + [Model(ReplyText(reply))]
  }

  /** A transcript that opens with a model entry and then alternates user
      and model entries, ending with a model entry. */
  predicate Alternating(messages: seq<Message>)
  {
    && |messages| % 2 == 1
    && forall i :: 0 <= i < |messages| ==> messages[i].role == (if i % 2 == 0 then "model" else "user")
  }

  /** Sends that complete one after another keep the transcript
      alternating. */
  lemma {:induction false} SequentialSendAlternates(messages: seq<Message>, text: string, reply: Option<AgentResponse>)
    requires Alternating(messages)
    ensures Alternating(Completed(messages, text, reply))
  {
    var r := Completed(messages, text, reply);
    var n := |messages|;
    assert n % 2 == 1;
    assert (n + 1) % 2 == 0 && (n + 2) % 2 == 1;
    forall i | 0 <= i < |r|
      ensures r[i].role == (if i % 2 == 0 then "model" else "user")
    {
      if i < n {
        assert r[i] == r[..n][i] == messages[i];
      }
    }
  }

  /** The send handler has no in-flight guard: a second send started before
      the first completes sees the first user entry, and each completion
      sets the transcript its own send captured plus its reply, so the
      completion that comes last decides the transcript. When the first
      send completes first, its reply is overwritten: both user entries and
      only the second reply remain, and the transcript no longer
      alternates. When the second completes first, the first completion
      erases the second user entry and its reply: the transcript is the
      first send's alone. Either way one of the two replies is lost. */
  lemma {:induction false} OverlappingSendsLoseOneReply(messages: seq<Message>, a: string, b: string,
                                                      ra: Option<AgentResponse>, rb: Option<AgentResponse>)
    requires Alternating(messages)
    ensures var first := messages + [User(a)];
      var second := first + [User(b)];
      var firstThenSecond := Completed(first, b, rb);
      && Completed(messages, a, ra) == first + [Model(ReplyText(ra))]
      && firstThenSecond == second + [Model(ReplyText(rb))]
      && |firstThenSecond| == |messages| + 3
      && !Alternating(firstThenSecond)
    ensures var secondThenFirst := Completed(messages, a, ra);
      && secondThenFirst == messages + [User(a), Model(ReplyText(ra))]
      && |secondThenFirst| == |messages| + 2
      && Alternating(secondThenFirst)
  {
    var final := Completed(messages + [User(a)], b, rb);
    assert final[|messages| + 1].role == "user";
    SequentialSendAlternates(messages, a, ra);
  }

  /** The suggestion chips' condition, on the processing flag and the
      number of transcript entries. */
  predicate SuggestionsShown(isProcessing: bool, count: nat)
  {
    !isProcessing && count < SUGGESTION_LIMIT
  }

  /** None of the fixed suggestions is blank. */
  lemma SuggestionsNotBlank(k: nat)
    requires k < |SUGGESTIONS|
    ensures !IsBlank(SUGGESTIONS[k]) && Trim(SUGGESTIONS[k]) != ""
  {
    assert !IsJsWhitespace(SUGGESTIONS[k][0]);
    TrimEmptyIffBlank(SUGGESTIONS[k]);
  }

  /** From the greeting, each completed send adds two entries, so the chips
      stay after the first send and are gone once the second completes. */
  lemma {:induction false} SuggestionsAfterSends(a: string, b: string, ra: Option<AgentResponse>, rb: Option<AgentResponse>)
    ensures SuggestionsShown(false, |[Model(GREETING)]|)
    ensures SuggestionsShown(false, |Completed([Model(GREETING)], a, ra)|)
    ensures !SuggestionsShown(false, |Completed(Completed([Model(GREETING)], a, ra), b, rb)|)
  {
    var once := Completed([Model(GREETING)], a, ra);
    assert |once| == 3;
    assert |Completed(once, b, rb)| == 5;
  }

  /** The panel's component state. */
  class ChatPanel {
    var isOpen: bool
    var messages: seq<Message>
    var input: string
    var isProcessing: bool
    var isListening: bool
    var isMuted: bool
    var chatHistory: seq<Content>
    /** Every `onNavigate(payload)` call, in order. */
    var navigations: seq<string>
    /** Every utterance handed to speech synthesis, in order. */
    var spoken: seq<string>
    /** How many times speech synthesis was cancelled. */
    var cancels: nat
    /** How many times a speech recogniser was started. */
    var recognitionStarts: nat

    /** The first render. */
    constructor ()
      ensures messages == [Model(GREETING)] && Alternating(messages)
      ensures !isOpen && input == "" && !isProcessing && !isListening && !isMuted && chatHistory == []
      ensures navigations == [] && spoken == [] && cancels == 0 && recognitionStarts == 0
    {
      isOpen := false;
      messages := [Model(GREETING)];
      input := "";
      isProcessing := false;
      isListening := false;
      isMuted := false;
      chatHistory := [];
      navigations := [];
      spoken := [];
      cancels := 0;
      recognitionStarts := 0;
    }

    /** The send button is disabled exactly when the input is blank, that
        is, made only of JavaScript white space. */
    predicate SendDisabled()
      reads this
      ensures SendDisabled() <==> IsBlank(input)
    {
      TrimEmptyIffBlank(input);
      Trim(input) == ""
    }

    /** The suggestion chips are shown while idle with fewer than five
        messages. */
    predicate ShowSuggestions()
      reads this
      ensures ShowSuggestions() <==> SuggestionsShown(isProcessing, |messages|)
    {
      !isProcessing && |messages| < SUGGESTION_LIMIT
    }

    method SetInput(value: string)
      modifies this`input
      ensures input == value
    {
      input := value;
    }

    method SetOpen(open: bool)
      modifies this`isOpen
      ensures isOpen == open
    {
      isOpen := open;
    }

    /** `handleSend` up to the `await`. A blank text returns at once; any
        other text, whether or not a send is already in flight, appends the
        untrimmed text as a user entry, clears the input and sets the
        processing flag. */
    method BeginSend(text: string) returns (pending: Option<PendingSend>)
      modifies this`messages, this`input, this`isProcessing
      ensures Trim(text) == "" <==> pending.None?
      ensures pending.None? ==> messages == old(messages) && input == old(input) && isProcessing == old(isProcessing)
      ensures pending.Some? ==>
        && pending.value == PendingSend(text, old(messages) + [User(text)], chatHistory, isMuted)
        && messages == old(messages) + [User(text)]
        && input == "" && isProcessing
    {
      if Trim(text) == "" {
        return None;
      }
      var newMsgs := messages + [User(text)];
      messages := newMsgs;
      input := "";
      isProcessing := true;
      pending := Some(PendingSend(text, newMsgs, chatHistory, isMuted));
    }

    /** `handleSend` after the `await`: `reply` is the agent's response, or
        `None` when the call threw. The transcript becomes the one the
        handler saw plus exactly one model entry; the history is replaced,
        navigation forwarded and the reply spoken only on success, and the
        processing flag is cleared either way. */
    method CompleteSend(pending: PendingSend, reply: Option<AgentResponse>)
      modifies this`messages, this`chatHistory, this`navigations, this`spoken, this`isProcessing
      ensures messages == pending.newMsgs + [Model(ReplyText(reply))]
      ensures !isProcessing
      ensures chatHistory == (if reply.Some? then reply.value.newHistory else old(chatHistory))
      ensures navigations == old(navigations) +
        (if reply.Some? && reply.value.action.Some? && reply.value.action.value.kind == Navigate
         then [reply.value.action.value.payload] else [])
      ensures spoken == old(spoken) + (if reply.Some? && !pending.muted then [reply.value.text] else [])
    {
      if reply.Some? {
        var response := reply.value;
        messages := pending.newMsgs + [Model(response.text)];
        chatHistory := response.newHistory;
        if response.action.Some? && response.action.value.kind == Navigate {
          navigations := navigations + [response.action.value.payload];
        }
        if !pending.muted {
          spoken := spoken + [response.text];
        }
      } else {
        messages := pending.newMsgs + [Model(BACKEND_ERROR)];
      }
      isProcessing := false;
    }

    /** One whole send with no other event in between: the agent turn runs
        on the history the panel holds and never throws, so the transcript
        gains the user entry and the text of the turn's reply
        (`Agent.TurnResult`), the history becomes the reply's, and a
        navigation reaches the host exactly when the reply carries one. */
    method HandleSend(store: LogStore, text: string, activeBasinId: string, script: ChatScript, env: TurnEnv)
      returns (reply: Option<AgentResponse>)
      requires store.Valid()
      modifies this`messages, this`input, this`isProcessing, this`chatHistory, this`navigations, this`spoken
      modifies store`logs, store`records, store`delivered
      ensures store.Valid()
      ensures Trim(text) == "" ==>
        && reply.None? && messages == old(messages) && input == old(input)
        && isProcessing == old(isProcessing) && chatHistory == old(chatHistory)
        && navigations == old(navigations) && spoken == old(spoken)
        && store.logs == old(store.logs) && store.records == old(store.records)
        && store.delivered == old(store.delivered)
      ensures Trim(text) != "" ==>
        && reply.Some?
        && messages == Completed(old(messages), text, reply)
        && input == "" && !isProcessing
        && chatHistory == reply.value.newHistory
        && (reply.value.action.Some? ==> reply.value.action.value.kind == Navigate)
        && navigations == old(navigations) +
             (if reply.value.action.Some? then [reply.value.action.value.payload] else [])
        && spoken == old(spoken) + (if old(isMuted) then [] else [reply.value.text])
      ensures Trim(text) != "" ==> reply == Some(TurnResult(script, old(chatHistory)))
      ensures Trim(text) != "" ==> (ShowSuggestions() <==> SuggestionsShown(false, |old(messages)| + 2))
    {
      var pending := BeginSend(text);
      if pending.None? {
        return None;
      }
      var sent := pending.value;
      reply := FinishSend(store, sent, activeBasinId, script, env);
    }

    /** The Enter key and the send button: `handleSend(input)`. With a blank
        input (the button disabled) nothing happens; otherwise the input is
        sent, cleared, and answered by the turn's reply. */
    method SubmitInput(store: LogStore, activeBasinId: string, script: ChatScript, env: TurnEnv)
      returns (reply: Option<AgentResponse>)
      requires store.Valid()
      modifies this`messages, this`input, this`isProcessing, this`chatHistory, this`navigations, this`spoken
      modifies store`logs, store`records, store`delivered
      ensures store.Valid()
      ensures old(SendDisabled()) ==>
        && reply.None? && messages == old(messages) && input == old(input)
        && chatHistory == old(chatHistory) && store.records == old(store.records)
      ensures !old(SendDisabled()) ==>
        && reply == Some(TurnResult(script, old(chatHistory)))
        && messages == Completed(old(messages), old(input), reply)
        && input == "" && chatHistory == reply.value.newHistory
    {
      reply := HandleSend(store, input, activeBasinId, script, env);
    }

    /** A suggestion chip: `handleSend(s)` with one of the fixed
        suggestions, which are never blank, so the send always goes ahead. */
    method SendSuggestion(store: LogStore, k: nat, activeBasinId: string, script: ChatScript, env: TurnEnv)
      returns (reply: Option<AgentResponse>)
      requires store.Valid() && ShowSuggestions() && k < |SUGGESTIONS|
      modifies this`messages, this`input, this`isProcessing, this`chatHistory, this`navigations, this`spoken
      modifies store`logs, store`records, store`delivered
      ensures store.Valid()
      ensures reply == Some(TurnResult(script, old(chatHistory)))
      ensures messages == Completed(old(messages), SUGGESTIONS[k], reply)
      ensures input == "" && chatHistory == reply.value.newHistory
    {
      SuggestionsNotBlank(k);
      reply := HandleSend(store, SUGGESTIONS[k], activeBasinId, script, env);
    }

    /** The agent turn and the completion of one pending send. */
    method FinishSend(store: LogStore, pending: PendingSend, activeBasinId: string, script: ChatScript, env: TurnEnv)
      returns (reply: Option<AgentResponse>)
      requires store.Valid()
      modifies this`messages, this`chatHistory, this`navigations, this`spoken, this`isProcessing
      modifies store`logs, store`records, store`delivered
      ensures store.Valid()
      ensures reply.Some? && (reply.value.action.Some? ==> reply.value.action.value.kind == Navigate)
      ensures messages == pending.newMsgs + [Model(ReplyText(reply))]
      ensures !isProcessing && chatHistory == reply.value.newHistory
      ensures navigations == old(navigations) +
        (if reply.value.action.Some? then [reply.value.action.value.payload] else [])
      ensures spoken == old(spoken) + (if pending.muted then [] else [reply.value.text])
      ensures reply == Some(TurnResult(script, pending.history))
      ensures ShowSuggestions() <==> SuggestionsShown(false, |pending.newMsgs| + 1)
    {
      var response := Ask(store, pending.text, pending.history, activeBasinId, script, env);
      reply := Some(response);
      CompleteSend(pending, reply);
    }

    /** The mute button; the effect on `isMuted` cancels speech when it
        becomes muted. */
    method ToggleMute()
      modifies this`isMuted, this`cancels
      ensures isMuted == !old(isMuted)
      ensures cancels == old(cancels) + (if isMuted then 1 else 0)
    {
      isMuted := !isMuted;
      if isMuted {
        cancels := cancels + 1;
      }
    }

    /** `toggleVoice`: nothing without recognition support; while listening
        it only clears the flag; otherwise it starts a recogniser. */
    method ToggleVoice(supported: bool)
      modifies this`isListening, this`recognitionStarts
      ensures !supported ==> isListening == old(isListening) && recognitionStarts == old(recognitionStarts)
      ensures supported && old(isListening) ==> !isListening && recognitionStarts == old(recognitionStarts)
      ensures supported && !old(isListening) ==>
        isListening == old(isListening) && recognitionStarts == old(recognitionStarts) + 1
    {
      if !supported {
        return;
      }
      if isListening {
        isListening := false;
        return;
      }
      recognitionStarts := recognitionStarts + 1;
    }

    /** The recogniser's `onstart` and `onend` callbacks. */
    method RecognitionStarted()
      modifies this`isListening
      ensures isListening
    {
      isListening := true;
    }

    method RecognitionEnded()
      modifies this`isListening
      ensures !isListening
    {
      isListening := false;
    }
  }

  /** The agent turn as the panel sees it: the reply is the turn's
      (`Agent.TurnResult`), the store stays consistent and any action is a
      navigation. */
  method Ask(store: LogStore, text: string, history: seq<Content>, activeBasinId: string, script: ChatScript, env: TurnEnv)
    returns (response: AgentResponse)
    requires store.Valid()
    modifies store`logs, store`records, store`delivered
    ensures store.Valid()
    ensures response == TurnResult(script, history)
    ensures response.action.Some? ==> response.action.value.kind == Navigate
  {
    var sent;
    response, sent := GetAgentResponse(store, text, history, activeBasinId, script, env);
  }
}
