/**
 * The chat assistant (`ChatbotComponent`): a transcript that opens with one welcome message,
 * grows by appending only, and is reset by `clearChat`; at most one request is in flight.
 */
module Chatbot {
  import opened Wrappers
  import opened Text

  const WelcomeText := "Hello! I'm your AI learning assistant. How can I help you today?"
  const ApologyText := "Sorry, I encountered an error. Please try again."

  /** A transcript entry; its timestamp is not modelled. */
  datatype ChatMessage = ChatMessage(message: string, isUser: bool)

  const Welcome := ChatMessage(WelcomeText, false)

  class ChatbotComponent {
    var messages: seq<ChatMessage>
    var userMessage: string
    var isLoading: bool
    var isMinimized: bool

    /** The transcript always opens with the welcome message. */
    ghost predicate Valid()
      reads this
    {
      |messages| >= 1 && messages[0] == Welcome
    }

    constructor()
      ensures Valid() && messages == [Welcome]
      ensures userMessage == "" && !isLoading && !isMinimized
    {
      messages := [Welcome];
      userMessage := "";
      isLoading := false;
      isMinimized := false;
    }

    /**
     * `sendMessage`: nothing happens for blank input or while a reply is awaited; otherwise
     * the input is appended as a user message, cleared, and returned as the text to send.
     * The test `!userMessage.trim()` is written as `Blank` (`Text.TrimEmptyIffBlank`).
     */
    method SendMessage() returns (sent: Option<string>)
      requires Valid()
      modifies this
      ensures Valid()
      ensures sent.None? <==> Blank(old(userMessage)) || old(isLoading)
      ensures sent.None? ==> messages == old(messages) && userMessage == old(userMessage) && isLoading == old(isLoading)
      ensures sent.Some? ==>
                sent.value == old(userMessage) && messages == old(messages) + [ChatMessage(old(userMessage), true)]
                && userMessage == "" && isLoading
      ensures isMinimized == old(isMinimized)
    {
      if Blank(userMessage) || isLoading {
        return None;
      }
      sent := Some(userMessage);
      messages := messages + [ChatMessage(userMessage, true)];
      userMessage := "";
      isLoading := true;
    }

    /** A reply: one bot message with the response text. */
    method OnReply(response: string)
      requires Valid() && isLoading
      modifies this
      ensures Valid()
      ensures messages == old(messages) + [ChatMessage(response, false)] && !isLoading
      ensures userMessage == old(userMessage) && isMinimized == old(isMinimized)
    {
      messages := messages + [ChatMessage(response, false)];
      isLoading := false;
    }

    /** A failed request: one fixed apology from the bot. */
    method OnError()
      requires Valid() && isLoading
      modifies this
      ensures Valid()
      ensures messages == old(messages) + [ChatMessage(ApologyText, false)] && !isLoading
      ensures userMessage == old(userMessage) && isMinimized == old(isMinimized)
    {
      messages := messages + [ChatMessage(ApologyText, false)];
      isLoading := false;
    }

    /** `onKeyPress`: Enter without Shift sends, any other key does nothing. */
    method OnKeyPress(key: string, shiftKey: bool) returns (sent: Option<string>)
      requires Valid()
      modifies this
      ensures Valid()
      ensures !(key == "Enter" && !shiftKey) ==> sent.None? && unchanged(this)
      ensures key == "Enter" && !shiftKey ==>
                (sent.None? <==> Blank(old(userMessage)) || old(isLoading))
                && (sent.None? ==> messages == old(messages) && userMessage == old(userMessage)
                                   && isLoading == old(isLoading))
                && (sent.Some? ==> sent.value == old(userMessage)
                                   && messages == old(messages) + [ChatMessage(old(userMessage), true)]
                                   && userMessage == "" && isLoading)
      ensures isMinimized == old(isMinimized)
    {
      sent := None;
      if key == "Enter" && !shiftKey {
        sent := SendMessage();
      }
    }

    method ToggleMinimize()
      requires Valid()
      modifies this
      ensures Valid()
      ensures isMinimized == !old(isMinimized)
      ensures messages == old(messages) && userMessage == old(userMessage) && isLoading == old(isLoading)
    {
      isMinimized := !isMinimized;
    }

    /**
     * `clearChat`: the transcript is the welcome message again.  The loading flag is left
     * alone: a reply still awaited is appended to the fresh transcript when it arrives.
     */
    method ClearChat()
      requires Valid()
      modifies this
      ensures Valid()
      ensures messages == [Welcome]
      ensures userMessage == old(userMessage) && isLoading == old(isLoading) && isMinimized == old(isMinimized)
    {
      messages := [Welcome];
    }
  }

  /** Toggling twice restores the flag. */
  method ToggleTwice(c: ChatbotComponent)
    requires c.Valid()
    modifies c
    ensures c.isMinimized == old(c.isMinimized)
    ensures c.messages == old(c.messages)
  {
    c.ToggleMinimize();
    c.ToggleMinimize();
  }
}
