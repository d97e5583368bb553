/** The assistant chat page (`src/pages/tvagent-page.tsx`): the message
    list, sending with a fallback to the older assistant interface, the
    conversation title editor, the keys, and speech input. The server's
    answers, the clock (`nowMs`, for message ids) and the locale's default
    title are inputs. */
module TvAgentPage {
  import opened Wrappers
  import opened Text
  import opened Retry
  import opened ThreadSidebar

  datatype Sender = UserSender | AgentSender

  /** A chat message; timestamps and attached task data are left out. */
  datatype ChatMessage = ChatMessage(id: string, sender: Sender, message: string, functionCalled: Option<string>)

  /** A message as the thread history stores it. */
  datatype StoredMessage = StoredMessage(role: string, content: string, functionCalled: Option<string>)

  const WelcomeText := "Hello! I'm your TaskVision AI assistant. How can I help you manage your tasks today?"
  const FallbackFunction := "v1-fallback"
  const ErrorPrefix := "Sorry, I encountered an error: "

  function Welcome(id: string): (m: ChatMessage)
    ensures m.sender == AgentSender && m.message == WelcomeText && m.functionCalled == None
  {
    ChatMessage(id, AgentSender, WelcomeText, None)
  }

  // ---------------------------------------------------------------------------
  // loadThreadMessages

  function HistoryId(threadId: string, index: nat): string
  {
    threadId + "-" + NatToString(index)
  }

  function SenderOf(role: string): (s: Sender)
    ensures s == UserSender <==> role == "user"
  {
    if role == "user" then UserSender else AgentSender
  }

  function HistoryFrom(threadId: string, stored: seq<StoredMessage>, start: nat): (r: seq<ChatMessage>)
    ensures |r| == |stored|
    ensures forall i :: 0 <= i < |r| ==>
      r[i] == ChatMessage(HistoryId(threadId, start + i), SenderOf(stored[i].role), stored[i].content, stored[i].functionCalled)
    decreases |stored|
  {
    if |stored| == 0 then []
    else
      [ChatMessage(HistoryId(threadId, start), SenderOf(stored[0].role), stored[0].content, stored[0].functionCalled)]
        + HistoryFrom(threadId, stored[1..], start + 1)
  }

  /** The history of a thread as chat messages: the `i`-th stored message
      becomes the message `threadId-i`, a user's when its role is "user"
      and the assistant's otherwise. */
  function History(threadId: string, stored: seq<StoredMessage>): (r: seq<ChatMessage>)
    ensures |r| == |stored|
    ensures forall i :: 0 <= i < |r| ==>
      r[i].id == HistoryId(threadId, i) && r[i].message == stored[i].content &&
      r[i].functionCalled == stored[i].functionCalled &&
      (r[i].sender == UserSender <==> stored[i].role == "user")
  {
    HistoryFrom(threadId, stored, 0)
  }

  /** Different positions give different ids. */
  lemma HistoryIdInjective(threadId: string, i: nat, j: nat)
    requires HistoryId(threadId, i) == HistoryId(threadId, j)
    ensures i == j
  {
    var p := threadId + "-";
    assert HistoryId(threadId, i)[|p|..] == NatToString(i);
    assert HistoryId(threadId, j)[|p|..] == NatToString(j);
    NatToStringRoundTrip(i);
    NatToStringRoundTrip(j);
  }

  /** A loaded history has no two messages with the same id. */
  lemma HistoryIdsDistinct(threadId: string, stored: seq<StoredMessage>)
    ensures forall i, j :: 0 <= i < j < |History(threadId, stored)| ==>
      History(threadId, stored)[i].id != History(threadId, stored)[j].id
  {
    var r := History(threadId, stored);
    forall i, j | 0 <= i < j < |r|
      ensures r[i].id != r[j].id
    {
      if r[i].id == r[j].id {
        HistoryIdInjective(threadId, i, j);
      }
    }
  }

  // ---------------------------------------------------------------------------
  // handleSendMessage

  /** A reply of the threaded interface, and one of the older interface. */
  datatype V2Reply = V2Reply(message: string, functionCalled: Option<string>, thread: Option<ConversationThread>)
  datatype V1Reply = V1Reply(message: string, functionCalled: Option<string>)

  /** What a send captured when it started: the text and the thread then
      active. */
  datatype PendingSend = PendingSend(text: string, activeAtStart: Option<ConversationThread>)

  /** The send button is disabled for a blank input or while a send runs. */
  predicate SendDisabled(input: string, isLoading: bool)
  {
    IsBlank(input) || isLoading
  }

  /** A truthy `functionCalled`: present and not empty. */
  function Truthy(s: Option<string>): Option<string>
  {
    if s.Some? && s.value != "" then s else None
  }

  /** The assistant's message once the send settles: the threaded reply;
      failing that, the older reply marked as the fallback when it names no
      function; failing both, an apology naming the older interface's
      error. */
  function AgentReply(nowMs: nat, v2: Answer<V2Reply>, v1: Answer<V1Reply>): (m: ChatMessage)
    ensures m.id == NatToString(nowMs + 1) && m.sender == AgentSender
    ensures v2.Loaded? ==> m.message == v2.value.message && m.functionCalled == Truthy(v2.value.functionCalled)
    ensures v2.Failed? && v1.Loaded? ==>
      m.message == v1.value.message &&
      m.functionCalled == (if Truthy(v1.value.functionCalled).Some? then v1.value.functionCalled else Some(FallbackFunction))
    ensures v2.Failed? && v1.Failed? ==>
      m.message == ErrorPrefix + v1.message.GetOr("Unknown error") && m.functionCalled == None
  {
    var id := NatToString(nowMs + 1);
    match v2
    case Loaded(r) => ChatMessage(id, AgentSender, r.message, Truthy(r.functionCalled))
    case Failed(_) =>
      match v1
      case Loaded(r) =>
        ChatMessage(id, AgentSender, r.message,
          if Truthy(r.functionCalled).Some? then r.functionCalled else Some(FallbackFunction))
      case Failed(e) => ChatMessage(id, AgentSender, ErrorPrefix + e.GetOr("Unknown error"), None)
  }

  /** The active thread after a send: a threaded reply's thread replaces
      it when there was none or its id differs. */
  function ThreadAfter(activeAtStart: Option<ConversationThread>, current: Option<ConversationThread>,
                       v2: Answer<V2Reply>): (r: Option<ConversationThread>)
    ensures r != current ==> v2.Loaded? && r == v2.value.thread && r.Some?
    ensures (v2.Loaded? && v2.value.thread.Some? && activeAtStart.Some? &&
             v2.value.thread.value.threadId == activeAtStart.value.threadId) ==> r == current
    ensures v2.Loaded? && v2.value.thread.Some? && activeAtStart.None? ==> r == v2.value.thread
  {
    if v2.Loaded? && v2.value.thread.Some? &&
       (activeAtStart.None? || v2.value.thread.value.threadId != activeAtStart.value.threadId)
    then v2.value.thread
    else current
  }

  /** A reply never leaves the page without a thread it had. */
  lemma ThreadAfterKeeps(activeAtStart: Option<ConversationThread>, current: Option<ConversationThread>,
                         v2: Answer<V2Reply>)
    ensures current.Some? ==> ThreadAfter(activeAtStart, current, v2).Some?
    ensures v2.Failed? ==> ThreadAfter(activeAtStart, current, v2) == current
  {
  }

  /** `prev + (prev ? ' ' : '') + transcript`. */
  function WithTranscript(prev: string, transcript: string): (r: string)
    ensures prev == "" ==> r == transcript
    ensures prev != "" ==>
      |r| == |prev| + 1 + |transcript| && r[..|prev|] == prev &&
      r[|prev|] == ' ' && r[|prev| + 1..] == transcript
  {
    prev + (if prev != "" then " " else "") + transcript
  }

  // ---------------------------------------------------------------------------
  // Keys

  datatype ChatKeyAction = SendKey | TypeKey

  /** `handleKeyPress`: Enter without Shift sends. */
  function ChatKey(key: string, shift: bool): (a: ChatKeyAction)
    ensures a == SendKey <==> key == "Enter" && !shift
  {
    if key == "Enter" && !shift then SendKey else TypeKey
  }

  datatype TitleKeyAction = SaveTitle | CancelTitle | EditTitle

  /** `handleTitleKeyPress`: Enter saves, Escape cancels. */
  function TitleKey(key: string): (a: TitleKeyAction)
    ensures a == SaveTitle <==> key == "Enter"
    ensures a == CancelTitle <==> key == "Escape"
  {
    if key == "Enter" then SaveTitle else if key == "Escape" then CancelTitle else EditTitle
  }

  // ---------------------------------------------------------------------------
  // The page.

  class Page {
    var messages: seq<ChatMessage>
    var inputMessage: string
    var isLoading: bool
    var isLoadingHistory: bool
    var isListening: bool
    var activeThread: Option<ConversationThread>
    var conversationTitle: string
    var isEditingTitle: bool
    var titleInputValue: string
    var titleUpdateCounter: nat

    /** The page starts from the state carried by navigation, or empty. */
    constructor (carriedMessages: seq<ChatMessage>, carriedThread: Option<ConversationThread>, carriedTitle: string)
      ensures messages == carriedMessages && activeThread == carriedThread && conversationTitle == carriedTitle
      ensures inputMessage == "" && !isLoading && isLoadingHistory && !isListening
      ensures !isEditingTitle && titleInputValue == "" && titleUpdateCounter == 0
    {
      messages := carriedMessages;
      activeThread := carriedThread;
      conversationTitle := carriedTitle;
      inputMessage := "";
      isLoading := false;
      isLoadingHistory := true;
      isListening := false;
      isEditingTitle := false;
      titleInputValue := "";
      titleUpdateCounter := 0;
    }

    /** `loadThreadMessages` once the request settles: the history replaces
        the messages; a failure leaves them. */
    method LoadThreadMessages(threadId: string, answer: Answer<seq<StoredMessage>>)
      modifies this
      ensures messages == (if answer.Loaded? then History(threadId, answer.value) else old(messages))
      ensures inputMessage == old(inputMessage) && isLoading == old(isLoading)
      ensures isLoadingHistory == old(isLoadingHistory) && isListening == old(isListening)
      ensures activeThread == old(activeThread) && conversationTitle == old(conversationTitle)
      ensures isEditingTitle == old(isEditingTitle) && titleInputValue == old(titleInputValue)
      ensures titleUpdateCounter == old(titleUpdateCounter)
    {
      if answer.Loaded? {
        messages := History(threadId, answer.value);
      }
    }

    /** The mount effect. The navigation state mirrors the page's messages,
        thread and title (the effect that writes it back runs on every
        change), so "carried" means the page already holds a message and a
        thread; then the effect only ends the history load. Otherwise the
        server's active thread is shown with its history; with none, or when
        the request fails, the welcome message under the default title. */
    method LoadActiveThread(active: Answer<Option<ConversationThread>>,
                            history: Answer<seq<StoredMessage>>, defaultTitle: string)
      modifies this
      ensures !isLoadingHistory
      ensures var carried := |old(messages)| > 0 && old(activeThread).Some?;
        carried ==>
        messages == old(messages) && activeThread == old(activeThread) &&
        conversationTitle == old(conversationTitle)
      ensures var carried := |old(messages)| > 0 && old(activeThread).Some?;
        !carried && active.Loaded? && active.value.Some? ==>
        activeThread == active.value && conversationTitle == active.value.value.title &&
        messages == (if history.Loaded? then History(active.value.value.threadId, history.value) else old(messages))
      ensures var carried := |old(messages)| > 0 && old(activeThread).Some?;
        !carried && !(active.Loaded? && active.value.Some?) ==>
        activeThread == old(activeThread) && conversationTitle == defaultTitle && messages == [Welcome("welcome")]
      ensures inputMessage == old(inputMessage) && isLoading == old(isLoading) && isListening == old(isListening)
      ensures isEditingTitle == old(isEditingTitle) && titleInputValue == old(titleInputValue)
      ensures titleUpdateCounter == old(titleUpdateCounter)
    {
      var carried := |messages| > 0 && activeThread.Some?;
      if !carried {
        if active.Loaded? && active.value.Some? {
          var t := active.value.value;
          activeThread := Some(t);
          conversationTitle := t.title;
          LoadThreadMessages(t.threadId, history);
        } else {
          conversationTitle := defaultTitle;
          messages := [Welcome("welcome")];
        }
      }
      isLoadingHistory := false;
    }

    /** `handleThreadSelect` once its requests settle: the thread switched
        to becomes active with its title and history; a failed switch
        changes nothing but the history load. */
    method ThreadSelected(threadId: string, switched: Answer<ConversationThread>, history: Answer<seq<StoredMessage>>)
      modifies this
      ensures !isLoadingHistory
      ensures switched.Loaded? ==>
        activeThread == Some(switched.value) && conversationTitle == switched.value.title &&
        messages == (if history.Loaded? then History(threadId, history.value) else old(messages))
      ensures switched.Failed? ==>
        activeThread == old(activeThread) && conversationTitle == old(conversationTitle) && messages == old(messages)
      ensures inputMessage == old(inputMessage) && isLoading == old(isLoading) && isListening == old(isListening)
      ensures isEditingTitle == old(isEditingTitle) && titleInputValue == old(titleInputValue)
      ensures titleUpdateCounter == old(titleUpdateCounter)
    {
      isLoadingHistory := true;
      if switched.Loaded? {
        activeThread := Some(switched.value);
        conversationTitle := switched.value.title;
        LoadThreadMessages(threadId, history);
      }
      isLoadingHistory := false;
    }

    /** `handleNewThread`: the created thread, the default title and a
        fresh welcome; a failure changes nothing. */
    method NewThread(defaultTitle: string, created: Answer<ConversationThread>)
      modifies this
      ensures created.Loaded? ==>
        activeThread == Some(created.value) && conversationTitle == defaultTitle && messages == [Welcome("welcome-new")]
      ensures created.Failed? ==>
        activeThread == old(activeThread) && conversationTitle == old(conversationTitle) && messages == old(messages)
      ensures inputMessage == old(inputMessage) && isLoading == old(isLoading) && isListening == old(isListening)
      ensures isLoadingHistory == old(isLoadingHistory)
      ensures isEditingTitle == old(isEditingTitle) && titleInputValue == old(titleInputValue)
      ensures titleUpdateCounter == old(titleUpdateCounter)
    {
      if created.Loaded? {
        activeThread := Some(created.value);
        conversationTitle := defaultTitle;
        messages := [Welcome("welcome-new")];
      }
    }

    /** `handleThreadDeleted`: the server's new active thread with its
        history, or no thread and a welcome under the default title; a
        failure changes nothing. */
    method ThreadDeleted(active: Answer<Option<ConversationThread>>, history: Answer<seq<StoredMessage>>,
                         defaultTitle: string)
      modifies this
      ensures active.Loaded? && active.value.Some? ==>
        activeThread == active.value && conversationTitle == active.value.value.title &&
        messages == (if history.Loaded? then History(active.value.value.threadId, history.value) else old(messages))
      ensures active.Loaded? && active.value.None? ==>
        activeThread == None && conversationTitle == defaultTitle && messages == [Welcome("welcome-after-delete")]
      ensures active.Failed? ==>
        activeThread == old(activeThread) && conversationTitle == old(conversationTitle) && messages == old(messages)
      ensures inputMessage == old(inputMessage) && isLoading == old(isLoading) && isListening == old(isListening)
      ensures isLoadingHistory == old(isLoadingHistory)
      ensures isEditingTitle == old(isEditingTitle) && titleInputValue == old(titleInputValue)
      ensures titleUpdateCounter == old(titleUpdateCounter)
    {
      if active.Loaded? {
        if active.value.Some? {
          var t := active.value.value;
          activeThread := Some(t);
          conversationTitle := t.title;
          LoadThreadMessages(t.threadId, history);
        } else {
          activeThread := None;
          conversationTitle := defaultTitle;
          messages := [Welcome("welcome-after-delete")];
        }
      }
    }

    method InputChanged(value: string)
      modifies this
      ensures inputMessage == value
      ensures messages == old(messages) && isLoading == old(isLoading) && activeThread == old(activeThread)
      ensures isLoadingHistory == old(isLoadingHistory) && isListening == old(isListening)
      ensures conversationTitle == old(conversationTitle) && isEditingTitle == old(isEditingTitle)
      ensures titleInputValue == old(titleInputValue) && titleUpdateCounter == old(titleUpdateCounter)
    {
      inputMessage := value;
    }

    /** `handleSendMessage` up to the request: refused for a blank input or
        while a send runs; otherwise the user's message (the input as
        typed) is appended, the input cleared and the send marked running. */
    method BeginSend(nowMs: nat) returns (pending: Option<PendingSend>)
      modifies this
      ensures pending.Some? <==> !SendDisabled(old(inputMessage), old(isLoading))
      ensures pending.None? ==>
        messages == old(messages) && inputMessage == old(inputMessage) && isLoading == old(isLoading)
      ensures pending.Some? ==>
        pending.value == PendingSend(old(inputMessage), old(activeThread)) &&
        messages == old(messages) + [ChatMessage(NatToString(nowMs), UserSender, old(inputMessage), None)] &&
        inputMessage == "" && isLoading
      ensures activeThread == old(activeThread) && isLoadingHistory == old(isLoadingHistory)
      ensures isListening == old(isListening) && conversationTitle == old(conversationTitle)
      ensures isEditingTitle == old(isEditingTitle) && titleInputValue == old(titleInputValue)
      ensures titleUpdateCounter == old(titleUpdateCounter)
    {
      if IsBlank(inputMessage) || isLoading {
        return None;
      }
      pending := Some(PendingSend(inputMessage, activeThread));
      messages := messages + [ChatMessage(NatToString(nowMs), UserSender, inputMessage, None)];
      inputMessage := "";
      isLoading := true;
    }

    /** `handleSendMessage` once its requests settle: exactly one message
        from the assistant is appended, the active thread follows a
        threaded reply, and the send is over. */
    method FinishSend(pending: PendingSend, nowMs: nat, v2: Answer<V2Reply>, v1: Answer<V1Reply>)
      modifies this
      ensures messages == old(messages) + [AgentReply(nowMs, v2, v1)]
      ensures activeThread == ThreadAfter(pending.activeAtStart, old(activeThread), v2)
      ensures !isLoading
      ensures inputMessage == old(inputMessage) && isLoadingHistory == old(isLoadingHistory)
      ensures isListening == old(isListening) && conversationTitle == old(conversationTitle)
      ensures isEditingTitle == old(isEditingTitle) && titleInputValue == old(titleInputValue)
      ensures titleUpdateCounter == old(titleUpdateCounter)
    {
      var reply := AgentReply(nowMs, v2, v1);
      activeThread := ThreadAfter(pending.activeAtStart, activeThread, v2);
      messages := messages + [reply];
      isLoading := false;
    }

    /** A recognised phrase is added to the input after a single space. */
    method TranscriptReceived(transcript: string)
      modifies this
      ensures inputMessage == WithTranscript(old(inputMessage), transcript)
      ensures messages == old(messages) && isLoading == old(isLoading) && activeThread == old(activeThread)
      ensures isLoadingHistory == old(isLoadingHistory) && isListening == old(isListening)
      ensures conversationTitle == old(conversationTitle) && isEditingTitle == old(isEditingTitle)
      ensures titleInputValue == old(titleInputValue) && titleUpdateCounter == old(titleUpdateCounter)
    {
      inputMessage := WithTranscript(inputMessage, transcript);
    }

    /** The microphone button: asks recognition to start when idle and to
        stop when listening (the answer is which request it made); the
        recognition's own start and end events set the flag. */
    method MicrophoneClicked(supported: bool) returns (start: bool, stop: bool)
      ensures start <==> supported && !isListening
      ensures stop <==> supported && isListening
    {
      start := supported && !isListening;
      stop := supported && isListening;
    }

    method ListeningChanged(listening: bool)
      modifies this
      ensures isListening == listening
      ensures messages == old(messages) && isLoading == old(isLoading) && activeThread == old(activeThread)
      ensures isLoadingHistory == old(isLoadingHistory) && inputMessage == old(inputMessage)
      ensures conversationTitle == old(conversationTitle) && isEditingTitle == old(isEditingTitle)
      ensures titleInputValue == old(titleInputValue) && titleUpdateCounter == old(titleUpdateCounter)
    {
      isListening := listening;
    }

    /** `handleTitleEdit`: the editor opens on the current title. */
    method TitleEdit()
      modifies this
      ensures isEditingTitle && titleInputValue == conversationTitle
      ensures messages == old(messages) && isLoading == old(isLoading) && activeThread == old(activeThread)
      ensures isLoadingHistory == old(isLoadingHistory) && isListening == old(isListening)
      ensures inputMessage == old(inputMessage) && conversationTitle == old(conversationTitle)
      ensures titleUpdateCounter == old(titleUpdateCounter)
    {
      titleInputValue := conversationTitle;
      isEditingTitle := true;
    }

    method TitleTyped(value: string)
      modifies this
      ensures titleInputValue == value
      ensures messages == old(messages) && isLoading == old(isLoading) && activeThread == old(activeThread)
      ensures isLoadingHistory == old(isLoadingHistory) && isListening == old(isListening)
      ensures inputMessage == old(inputMessage) && conversationTitle == old(conversationTitle)
      ensures isEditingTitle == old(isEditingTitle) && titleUpdateCounter == old(titleUpdateCounter)
    {
      titleInputValue := value;
    }

    /** `handleTitleSave` once the request settles. Without an active
        thread or with a blank title it only closes the editor. A saved
        title is stored trimmed, the thread replaced by the server's, and
        the sidebar's refresh counter bumped; a failure puts the old title
        back in the editor. The editor closes in every case. */
    method TitleSave(answer: Answer<ConversationThread>) returns (requested: bool)
      modifies this`activeThread, this`conversationTitle, this`titleInputValue
      modifies this`titleUpdateCounter, this`isEditingTitle
      ensures requested <==> old(activeThread).Some? && !IsBlank(old(titleInputValue))
      ensures !isEditingTitle
      ensures !requested ==>
        activeThread == old(activeThread) && conversationTitle == old(conversationTitle) &&
        titleInputValue == old(titleInputValue) && titleUpdateCounter == old(titleUpdateCounter)
      ensures requested && answer.Loaded? ==>
        activeThread == Some(answer.value) && conversationTitle == Trim(old(titleInputValue)) &&
        titleInputValue == old(titleInputValue) && titleUpdateCounter == old(titleUpdateCounter) + 1
      ensures requested && answer.Failed? ==>
        activeThread == old(activeThread) && conversationTitle == old(conversationTitle) &&
        titleInputValue == old(conversationTitle) && titleUpdateCounter == old(titleUpdateCounter)
    {
      requested := activeThread.Some? && !IsBlank(titleInputValue);
      if requested {
        match answer {
          case Loaded(updated) =>
            activeThread := Some(updated);
            conversationTitle := Trim(titleInputValue);
            titleUpdateCounter := titleUpdateCounter + 1;
          case Failed(_) =>
            titleInputValue := conversationTitle;
        }
      }
      isEditingTitle := false;
    }

    /** `handleTitleCancel`: the editor closes on the current title. */
    method TitleCancel()
      modifies this
      ensures !isEditingTitle && titleInputValue == conversationTitle
      ensures messages == old(messages) && isLoading == old(isLoading) && activeThread == old(activeThread)
      ensures isLoadingHistory == old(isLoadingHistory) && isListening == old(isListening)
      ensures inputMessage == old(inputMessage) && conversationTitle == old(conversationTitle)
      ensures titleUpdateCounter == old(titleUpdateCounter)
    {
      titleInputValue := conversationTitle;
      isEditingTitle := false;
    }
  }

  /** A saved title is never blank. */
  lemma SavedTitleNotBlank(s: string)
    requires !IsBlank(s)
    ensures Trim(s) != ""
  {
    TrimEmptyIffBlank(s);
  }
}
