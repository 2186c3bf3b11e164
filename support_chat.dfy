/**
 * The support chat widget: a transcript that starts with the assistant's
 * greeting, an input box, a loading flag and a chat session created lazily
 * on the first send. Sending is split where it awaits the chat service:
 * `StartSend` runs the guard and the first updates and returns the message
 * it sends; `FinishSend` appends the assistant's turn.
 */
module SupportChat {
  import opened Wrappers
  import opened Text

  datatype Role = User | Model

  datatype Message = Message(role: Role, text: string)

  const Greeting := "Hi there! I am your CoupleAI assistant. How can I help you create the perfect moment today?"
  const EmptyReplyText := "I'm sorry, I couldn't process that. Please try again."
  const ConnectionErrorText := "Sorry, I am having trouble connecting right now. Please try again later."

  /** What the chat service does with one message: a response whose text may be missing, or a thrown error. */
  datatype ChatReply = Replied(text: Option<string>) | ChatFailed

  /**
   * The assistant's turn: the response text when it is present and non-empty,
   * the processing apology when it is missing or empty, the connection apology
   * when the call failed. It is never empty.
   */
  function BotText(reply: ChatReply): (r: string)
    ensures r != ""
    ensures reply.Replied? && reply.text.Some? && reply.text.value != "" ==> r == reply.text.value
    ensures reply.Replied? && (reply.text.None? || reply.text.value == "") ==> r == EmptyReplyText
    ensures reply.ChatFailed? ==> r == ConnectionErrorText
  {
    match reply
    case Replied(t) => if t.Some? && t.value != "" then t.value else EmptyReplyText
    case ChatFailed => ConnectionErrorText
  }

  /** No surrounding white space, and not empty: what the widget posts for the user. */
  predicate Trimmed(s: string)
  {
    s != [] && !IsWhitespace(s[0]) && !IsWhitespace(s[|s| - 1])
  }

  /** A turn the widget can show: it has text, and the user's turns are trimmed. */
  predicate TurnOk(m: Message)
  {
    m.text != "" && (m.role == User ==> Trimmed(m.text))
  }

  /** A transcript the widget can show: it opens with the greeting and every turn is well formed. */
  predicate WellFormed(ms: seq<Message>)
  {
    && |ms| >= 1
    && ms[0] == Message(Model, Greeting)
    && (forall i :: 0 <= i < |ms| ==> TurnOk(ms[i]))
  }

  /** Appending a well-formed turn keeps a transcript well formed. */
  lemma AppendKeepsWellFormed(ms: seq<Message>, m: Message)
    requires WellFormed(ms) && TurnOk(m)
    ensures WellFormed(ms + [m])
  {
    assert (ms + [m])[|ms|] == m;
    assert forall i :: 0 <= i < |ms| ==> (ms + [m])[i] == ms[i];
  }

  class Chat {
    var isOpen: bool
    var messages: seq<Message>
    var input: string
    var isLoading: bool
    var hasSession: bool
    ghost var sessionsCreated: nat

    /** The transcript is well formed and at most one session is ever created. */
    ghost predicate Valid()
      reads this
    {
      && WellFormed(messages)
      && sessionsCreated == (if hasSession then 1 else 0)
    }

    /** The send form is shown (the panel is open) and enabled: some non-blank input and no reply pending. */
    predicate SendEnabled()
      reads this
    {
      isOpen && Trim(input) != "" && !isLoading
    }

    constructor ()
      ensures Valid()
      ensures !isOpen && messages == [Message(Model, Greeting)] && input == "" && !isLoading && !hasSession
    {
      isOpen := false;
      messages := [Message(Model, Greeting)];
      input := "";
      isLoading := false;
      hasSession := false;
      sessionsCreated := 0;
    }

    /** The floating button flips the panel open or closed. */
    method Toggle()
      modifies this`isOpen
      ensures isOpen == !old(isOpen)
    {
      isOpen := !isOpen;
    }

    /** Typing in the input box, which is shown only while the panel is open and disabled while a reply is pending. */
    method EditInput(text: string)
      modifies this`input
      ensures input == (if isOpen && !old(isLoading) then text else old(input))
    {
      if isOpen && !isLoading {
        input := text;
      }
    }

    /** Create the chat session for the support model unless one already exists. */
    method InitChat()
      requires Valid()
      modifies this`hasSession, this`sessionsCreated
      ensures Valid()
      ensures hasSession
      ensures sessionsCreated == (if old(hasSession) then old(sessionsCreated) else old(sessionsCreated) + 1)
    {
      if !hasSession {
        hasSession := true;
        sessionsCreated := sessionsCreated + 1;
      }
    }

    /**
     * The send handler up to its call, reachable only from the open panel's
     * form: nothing happens with a blank input or while a reply is pending;
     * otherwise the trimmed input is appended as a user turn, the box is
     * cleared, loading starts, the session exists and the trimmed text is
     * what is sent.
     */
    method StartSend() returns (sent: Option<string>)
      requires Valid()
      modifies this`messages, this`input, this`isLoading, this`hasSession, this`sessionsCreated
      ensures Valid()
      ensures sent.Some? <==> old(SendEnabled())
      ensures sent.None? ==>
                && messages == old(messages) && input == old(input) && isLoading == old(isLoading)
                && hasSession == old(hasSession) && sessionsCreated == old(sessionsCreated)
      ensures sent.Some? ==>
                && sent.value == Trim(old(input))
                && messages == old(messages) + [Message(User, sent.value)]
                && input == "" && isLoading && hasSession
                && sessionsCreated == (if old(hasSession) then old(sessionsCreated) else old(sessionsCreated) + 1)
    {
      if !SendEnabled() {
        return None;
      }
      var userMessage := Trim(input);
      var turn := Message(User, userMessage);
      assert TurnOk(turn);
      AppendKeepsWellFormed(messages, turn);
      input := "";
      messages := messages + [turn];
      isLoading := true;
      InitChat();
      sent := Some(userMessage);
    }

    /** The chat call returns or throws: the assistant's turn is appended and loading ends. */
    method FinishSend(reply: ChatReply)
      requires Valid()
      modifies this`messages, this`isLoading
      ensures Valid()
      ensures messages == old(messages) + [Message(Model, BotText(reply))]
      ensures !isLoading
    {
      AppendKeepsWellFormed(messages, Message(Model, BotText(reply)));
      messages := messages + [Message(Model, BotText(reply))];
      isLoading := false;
    }

    /**
     * A whole exchange when nothing else happens while the reply is pending:
     * an admitted send adds exactly the user's trimmed turn and the
     * assistant's answer to `service(text)`.
     */
    method Send(service: string -> ChatReply) returns (sent: bool)
      requires Valid()
      modifies this`messages, this`input, this`isLoading, this`hasSession, this`sessionsCreated
      ensures Valid()
      ensures sent <==> old(SendEnabled())
      ensures !sent ==>
                && messages == old(messages) && input == old(input) && isLoading == old(isLoading)
                && hasSession == old(hasSession) && sessionsCreated == old(sessionsCreated)
      ensures sent ==>
                && messages == old(messages) + [Message(User, Trim(old(input))),
                                                Message(Model, BotText(service(Trim(old(input)))))]
                && input == "" && !isLoading && hasSession
                && sessionsCreated == (if old(hasSession) then old(sessionsCreated) else old(sessionsCreated) + 1)
    {
      ghost var before := messages;
      var text := StartSend();
      if text.None? {
        return false;
      }
      ghost var user := Message(User, text.value);
      assert messages == before + [user];
      FinishSend(service(text.value));
      assert messages == before + [user] + [Message(Model, BotText(service(text.value)))];
      assert before + [user] + [Message(Model, BotText(service(text.value)))]
          == before + [user, Message(Model, BotText(service(text.value)))];
      return true;
    }
  }
}
