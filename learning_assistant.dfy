/** The learning assistant: a setup form that starts a tutoring session, a
    chat transcript that grows by one question and one answer per send, and an
    end button that returns to the setup form. */
module LearningAssistant {
  import opened Outcomes
  import opened Text
  import Api

  datatype Role = User | Assistant

  datatype Message = Message(role: Role, content: string)

  /** The setup form: subject, topic and the learning objectives. */
  datatype SessionData = SessionData(subject: string, topic: string, learningObjectives: seq<string>)

  const EmptySession := SessionData("", "", [])

  /** `sessionData.subject && sessionData.topic`: both chosen. */
  predicate Complete(d: SessionData) {
    d.subject != "" && d.topic != ""
  }

  /** The assistant's greeting that opens every session. */
  function Welcome(subject: string, topic: string): Message {
    Message(Assistant, "Hello! I'm your AI learning assistant. I'll help you with " + subject + " - " + topic
      + ". What would you like to learn or what questions do you have?")
  }

  const ChatFailed := "Sorry, I encountered an error. Please try again."

  /** The body `learningAPI.chat` is called with. */
  datatype ChatRequest = ChatRequest(message: string, sessionId: Option<string>, subject: string, topic: string)

  /** A transcript as the chat shows it: the assistant opens, and from there
      the user and the assistant take turns, the assistant having the last
      word. */
  predicate Conversation(ms: seq<Message>) {
    && |ms| % 2 == 1
    && forall i :: 0 <= i < |ms| ==> (ms[i].role == User <==> i % 2 == 1)
  }

  /** A conversation followed by one user message and one assistant message is
      again a conversation. */
  lemma ConversationGrows(ms: seq<Message>, question: string, answer: string)
    requires Conversation(ms)
    ensures Conversation(ms + [Message(User, question), Message(Assistant, answer)])
  {
    var ns := ms + [Message(User, question), Message(Assistant, answer)];
    forall i | 0 <= i < |ns|
      ensures ns[i].role == User <==> i % 2 == 1
    {
      if i < |ms| {
        assert ns[i] == ms[i];
      }
    }
  }

  /** `e.key === 'Enter' && !e.shiftKey`: the keys that send. */
  predicate Sends(key: string, shift: bool) {
    key == "Enter" && !shift
  }

  class AssistantPage {
    var messages: seq<Message>
    var inputMessage: string
    var loading: bool
    var sessionId: Option<string>
    var sessionData: SessionData
    var showSetup: bool
    /** The calls made to the session, chat and end-session endpoints. */
    var startRequests: seq<Api.Call<SessionData>>
    var chatRequests: seq<Api.Call<ChatRequest>>
    var endRequests: seq<Api.Call<()>>

    /** Between handler runs: nothing in flight; the setup form shows no
        transcript and has no session; the chat view has a session and a
        transcript of alternating turns opened by the assistant. */
    ghost predicate Valid()
      reads this
    {
      && !loading
      && (showSetup ==> messages == [] && sessionId.None?)
      && (!showSetup ==> sessionId.Some? && Conversation(messages))
    }

    constructor ()
      ensures Valid() && showSetup && sessionData == EmptySession && inputMessage == ""
      ensures startRequests == [] && chatRequests == [] && endRequests == []
    {
      messages := [];
      inputMessage := "";
      loading := false;
      sessionId := None;
      sessionData := EmptySession;
      showSetup := true;
      startRequests := [];
      chatRequests := [];
      endRequests := [];
    }

    /** Choosing a subject clears the topic. */
    method ChangeSubject(subject: string)
      modifies this`sessionData
      ensures sessionData == old(sessionData).(subject := subject, topic := "")
    {
      sessionData := sessionData.(subject := subject, topic := "");
    }

    method ChangeTopic(topic: string)
      modifies this`sessionData
      ensures sessionData == old(sessionData).(topic := topic)
    {
      sessionData := sessionData.(topic := topic);
    }

    /** The objectives text area: re-parsed on every change into its non-blank
        lines. */
    method ChangeObjectivesText(text: string)
      modifies this`sessionData
      ensures sessionData == old(sessionData).(learningObjectives := NonBlankLines(text))
      ensures forall i :: 0 <= i < |sessionData.learningObjectives| ==> !IsBlank(sessionData.learningObjectives[i])
    {
      sessionData := sessionData.(learningObjectives := NonBlankLines(text));
    }

    /** `handleStartSession`: without both subject and topic nothing is sent and
        nothing changes. Otherwise the setup is sent; a reply's session id is
        stored, the setup form gives way to the chat and the transcript is the
        one greeting; a failure stays on the setup form. `loading` ends false
        either way. */
    method StartSession(reply: Reply<string>)
      requires Valid() && showSetup
      modifies this`loading, this`sessionId, this`showSetup, this`messages, this`startRequests
      ensures Valid()
      ensures !Complete(sessionData) ==> showSetup && startRequests == old(startRequests)
      ensures Complete(sessionData) ==> startRequests == old(startRequests) + [Api.StartSession(sessionData)]
      ensures Complete(sessionData) && reply.Ok? ==>
                && sessionId == Some(reply.body) && !showSetup
                && messages == [Welcome(sessionData.subject, sessionData.topic)]
      ensures reply.Failed? ==> showSetup && sessionId.None? && messages == []
    {
      if !Complete(sessionData) {
        return;
      }
      loading := true;
      startRequests := startRequests + [Api.StartSession(sessionData)];
      if reply.Ok? {
        sessionId := Some(reply.body);
        showSetup := false;
        messages := [Welcome(sessionData.subject, sessionData.topic)];
      }
      loading := false;
    }

    /** `handleSendMessage` (the input and the button are disabled while a reply
        is awaited): blank input sends nothing and changes nothing. Otherwise the
        input goes out and is cleared, and the transcript gains exactly two
        messages: the user's text, then the reply or the error notice; the
        earlier messages stay as they were. `loading` ends false either way. */
    method SendMessage(reply: Reply<string>)
      requires Valid() && !showSetup
      modifies this`messages, this`inputMessage, this`loading, this`chatRequests
      ensures Valid()
      ensures IsBlank(old(inputMessage)) ==>
                messages == old(messages) && inputMessage == old(inputMessage) && chatRequests == old(chatRequests)
      ensures !IsBlank(old(inputMessage)) ==>
                && inputMessage == ""
                && chatRequests == old(chatRequests) + [Api.Chat(ChatRequest(old(inputMessage), sessionId, sessionData.subject, sessionData.topic))]
                && messages == old(messages) + [Message(User, old(inputMessage)),
                                                Message(Assistant, if reply.Ok? then reply.body else ChatFailed)]
    {
      if IsBlank(inputMessage) {
        return;
      }
      var answer := if reply.Ok? then reply.body else ChatFailed;
      Exchange(inputMessage, answer);
    }

    /** The part of `handleSendMessage` after the blank check: the question is
        sent and cleared from the input, and the transcript gains the question
        and then the answer. */
    method Exchange(text: string, answer: string)
      requires Valid() && !showSetup
      modifies this`messages, this`inputMessage, this`loading, this`chatRequests
      ensures Valid()
      ensures inputMessage == ""
      ensures chatRequests == old(chatRequests) + [Api.Chat(ChatRequest(text, sessionId, sessionData.subject, sessionData.topic))]
      ensures messages == old(messages) + [Message(User, text), Message(Assistant, answer)]
    {
      ConversationGrows(messages, text, answer);
      messages := messages + [Message(User, text)];
      inputMessage := "";
      loading := true;
      chatRequests := chatRequests + [Api.Chat(ChatRequest(text, sessionId, sessionData.subject, sessionData.topic))];
      messages := messages + [Message(Assistant, answer)];
      loading := false;
    }

    /** `handleKeyPress`: Enter without Shift sends exactly as the send button
        does (so Enter on blank input changes nothing either); any other key
        changes nothing. */
    method KeyPress(key: string, shift: bool, reply: Reply<string>)
      requires Valid() && !showSetup
      modifies this`messages, this`inputMessage, this`loading, this`chatRequests
      ensures Valid()
      ensures !Sends(key, shift) || IsBlank(old(inputMessage)) ==>
                messages == old(messages) && inputMessage == old(inputMessage) && chatRequests == old(chatRequests)
      ensures Sends(key, shift) && !IsBlank(old(inputMessage)) ==>
                && inputMessage == ""
                && chatRequests == old(chatRequests) + [Api.Chat(ChatRequest(old(inputMessage), sessionId, sessionData.subject, sessionData.topic))]
                && messages == old(messages) + [Message(User, old(inputMessage)),
                                                Message(Assistant, if reply.Ok? then reply.body else ChatFailed)]
    {
      if Sends(key, shift) {
        SendMessage(reply);
      }
    }

    /** `handleEndSession`: a truthy session id is reported ended (whether or
        not that call succeeds); then, in every case, the session, the
        transcript and the setup form are reset. */
    method EndSession()
      requires Valid() && !showSetup
      modifies this`sessionId, this`messages, this`showSetup, this`sessionData, this`endRequests
      ensures Valid()
      ensures sessionId.None? && messages == [] && showSetup && sessionData == EmptySession
      ensures old(sessionId).Some? && old(sessionId).value != "" ==> endRequests == old(endRequests) + [Api.EndSession(old(sessionId).value)]
      ensures old(sessionId).None? || old(sessionId).value == "" ==> endRequests == old(endRequests)
    {
      if sessionId.Some? && sessionId.value != "" {
        endRequests := endRequests + [Api.EndSession(sessionId.value)];
      }
      sessionId := None;
      messages := [];
      showSetup := true;
      sessionData := EmptySession;
    }
  }
}
