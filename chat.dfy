/**
 * The chat panel: a transcript, an input box and a loading flag. Sending
 * appends the user's message, asks the chat flow for a reply with the
 * whole transcript as history, and appends exactly one model message.
 *
 * The chat flow (a call to a language model) is a parameter: a function
 * from the history to a reply or a failure.
 */
module Chat {
  import opened Schemas

  /** The message shown in place of a reply when the chat flow fails. */
  const Apology: string := "Sorry, I'm having trouble connecting. Please try again later."

  /** What the chat flow returns: the model's text, or a thrown error. */
  datatype ChatReply = Replied(text: string) | Failed

  /** The code points JavaScript's `trim` removes: white space and line terminators. */
  predicate IsWhitespace(c: char)
  {
    || c == ' ' || '\t' <= c <= '\r'
    || c == '\U{00A0}' || c == '\U{1680}' || '\U{2000}' <= c <= '\U{200A}'
    || c == '\U{2028}' || c == '\U{2029}' || c == '\U{202F}' || c == '\U{205F}'
    || c == '\U{3000}' || c == '\U{FEFF}'
  }

  /** Every character of `s` is white space (this includes the empty string). */
  predicate IsBlank(s: string)
  {
    forall k :: 0 <= k < |s| ==> IsWhitespace(s[k])
  }

  /** How many white-space characters `s` starts with. */
  function LeadingWhitespace(s: string): (n: nat)
    ensures n <= |s|
    ensures forall k :: 0 <= k < n ==> IsWhitespace(s[k])
    ensures n < |s| ==> !IsWhitespace(s[n])
  {
    if s == [] || !IsWhitespace(s[0]) then 0 else 1 + LeadingWhitespace(s[1..])
  }

  /** How many white-space characters `s` ends with. */
  function TrailingWhitespace(s: string): (n: nat)
    ensures n <= |s|
    ensures forall k :: |s| - n <= k < |s| ==> IsWhitespace(s[k])
    ensures n < |s| ==> !IsWhitespace(s[|s| - n - 1])
  {
    if s == [] || !IsWhitespace(s[|s| - 1]) then 0 else 1 + TrailingWhitespace(s[..|s| - 1])
  }

  /** `s.trim()`: empty exactly when `s` is blank, otherwise it starts and ends with a visible character. */
  function Trim(s: string): (r: string)
    ensures r == [] <==> IsBlank(s)
    ensures r != [] ==> !IsWhitespace(r[0]) && !IsWhitespace(r[|r| - 1])
    ensures |r| <= |s|
  {
    var lead := LeadingWhitespace(s);
    var trail := TrailingWhitespace(s[lead..]);
    s[lead..|s| - trail]
  }

  /** The text of the model message appended for a reply. */
  function ReplyText(reply: ChatReply): string
  {
    match reply
    case Replied(text) => text
    case Failed => Apology
  }

  /** The state of the chat panel. */
  class ChatPanel {
    var messages: seq<ChatMessage>
    var input: string
    var isLoading: bool

    constructor ()
      ensures messages == [] && input == "" && !isLoading
    {
      messages := [];
      input := "";
      isLoading := false;
    }

    /** Typing in the input box replaces its text. */
    method SetInput(text: string)
      modifies this
      ensures input == text
      ensures messages == old(messages) && isLoading == old(isLoading)
    {
      input := text;
    }

    /**
     * The first half of a send: blank input is ignored and no history is
     * sent; otherwise the user's message is appended, the input cleared,
     * loading switched on, and the history to send is returned.
     */
    method BeginSend() returns (history: Option<seq<ChatMessage>>)
      modifies this
      ensures history == None <==> IsBlank(old(input))
      ensures history == None ==> unchanged(this)
      ensures history != None ==>
                && history.value == old(messages) + [ChatMessage(User, old(input))]
                && messages == history.value
                && input == ""
                && isLoading
    {
      var trimmed := Trim(input);
      if trimmed == [] {
        return None;
      }
      var userMessage := ChatMessage(User, input);
      var newMessages := messages + [userMessage];
      messages := newMessages;
      input := "";
      isLoading := true;
      return Some(newMessages);
    }

    /**
     * The second half of a send: exactly one model message is appended,
     * carrying the reply or the apology, and loading is switched off.
     */
    method CompleteSend(reply: ChatReply)
      modifies this
      ensures messages == old(messages) + [ChatMessage(Model, ReplyText(reply))]
      ensures reply.Failed? ==> messages[|messages| - 1].content == Apology
      ensures !isLoading && input == old(input)
    {
      var modelMessage := ChatMessage(Model, ReplyText(reply));
      messages := messages + [modelMessage];
      isLoading := false;
    }

    /**
     * A whole send, with the chat flow completing before anything else
     * happens. Returns the history the flow was called with, if it was
     * called at all.
     */
    method HandleSend(chat: seq<ChatMessage> -> ChatReply) returns (history: Option<seq<ChatMessage>>)
      modifies this
      ensures history == None <==> IsBlank(old(input))
      ensures history == None ==> unchanged(this)
      ensures history != None ==>
                && history.value == old(messages) + [ChatMessage(User, old(input))]
                && messages == history.value + [ChatMessage(Model, ReplyText(chat(history.value)))]
                && input == ""
                && !isLoading
      ensures messages[..|old(messages)|] == old(messages)
    {
      ghost var before := messages;
      history := BeginSend();
      if history != None {
        CompleteSend(chat(history.value));
        assert messages[..|before|] == (before + [ChatMessage(User, old(input))])[..|before|];
      }
    }
  }
}
