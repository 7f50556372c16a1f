/**
 * The pure and stateful helpers of the model client (`claude_wrapper.py`):
 * the media type chosen for an image from its file extension, and the
 * conversation history kept by `ConversationManager`. The model itself is a
 * parameter: a function from the history sent (and the system prompt) to
 * the reply, or to an exception.
 */
module ClaudeWrapper {
  import opened Wrappers
  import opened Text

  // ----- _encode_image: the media type -----

  /** `image_path.lower().split('.')[-1]` */
  function Extension(path: string): string
  {
    var parts := Split(Lower(path), '.');
    parts[|parts| - 1]
  }

  /** The last part of a join is what follows the last separator, or the whole text when there is one part. */
  lemma {:induction false} JoinLast(parts: seq<string>, sep: char)
    requires |parts| >= 1
    ensures var s, last := Join(parts, sep), parts[|parts| - 1];
      && |last| <= |s| && s[|s| - |last|..] == last
      && (|parts| > 1 ==> |last| < |s| && s[|s| - |last| - 1] == sep)
  {
    if |parts| > 1 {
      JoinLast(parts[1..], sep);
      var tail := Join(parts[1..], sep);
      assert Join(parts, sep) == (parts[0] + [sep]) + tail;
    }
  }

  /** The last part of `s.split(sep)` is the text after the last `sep`, or all of `s` when it has none. */
  lemma LastPartSpec(s: string, sep: char)
    ensures var parts := Split(s, sep); var last := parts[|parts| - 1];
      && sep !in last && EndsWith(s, last)
      && (sep in s ==> |last| < |s| && s[|s| - |last| - 1] == sep)
      && (sep !in s ==> last == s)
  {
    var parts := Split(s, sep);
    SplitPartsFree(s, sep);
    SplitJoin(s, sep);
    JoinLast(parts, sep);
    if sep !in s {
      SplitNoSep(s, sep);
    }
  }

  /**
   * The extension is the text after the last '.' of the lower-cased path,
   * or the whole lower-cased path when it has no '.'.
   */
  lemma ExtensionSpec(path: string)
    ensures var lp, ext := Lower(path), Extension(path);
      && '.' !in ext && EndsWith(lp, ext)
      && ('.' in lp ==> |ext| < |lp| && lp[|lp| - |ext| - 1] == '.')
      && ('.' !in lp ==> ext == lp)
  {
    LastPartSpec(Lower(path), '.');
  }

  /** `media_type_map` */
  const MediaTypes: map<string, string> :=
    map["jpg" := "image/jpeg", "jpeg" := "image/jpeg", "png" := "image/png", "gif" := "image/gif", "webp" := "image/webp"]

  /** `media_type_map.get(extension, 'image/jpeg')` */
  function MediaType(path: string): string
  {
    var ext := Extension(path);
    if ext in MediaTypes then MediaTypes[ext] else "image/jpeg"
  }

  /**
   * png, gif and webp get their own types, each exactly for its own
   * extension; every other extension, jpg and jpeg included, gets image/jpeg.
   */
  lemma MediaTypeSpec(path: string)
    ensures var t, ext := MediaType(path), Extension(path);
      && (t == "image/png" <==> ext == "png")
      && (t == "image/gif" <==> ext == "gif")
      && (t == "image/webp" <==> ext == "webp")
      && (t == "image/jpeg" <==> ext !in {"png", "gif", "webp"})
  {
  }

  // ----- ConversationManager -----

  /** One entry of the history: `{"role": role, "content": content}`. */
  datatype Message = Message(role: string, content: string)

  /** What the model call does: returns the reply text, or raises. */
  datatype Reply = Answer(text: string) | Raised

  /** The exception `send_message` lets through. */
  datatype ChatError = ChatError

  /** The conversation history of one chat, kept between calls. */
  class ConversationManager {
    const systemPrompt: Option<string>
    var messages: seq<Message>

    /** A new manager starts with an empty history. */
    constructor(systemPrompt: Option<string>)
      ensures this.systemPrompt == systemPrompt && messages == []
    {
      this.systemPrompt := systemPrompt;
      messages := [];
    }

    /** `add_message`: one entry appended at the end, the earlier ones untouched. */
    method AddMessage(role: string, content: string)
      modifies this
      ensures messages == old(messages) + [Message(role, content)]
    {
      messages := messages + [Message(role, content)];
    }

    /**
     * `send_message`: the user's message is appended, the model is called
     * with the whole history, and its reply is appended and returned. When
     * the call raises, the user's message stays in the history.
     */
    method SendMessage(message: string, chat: (seq<Message>, Option<string>) -> Reply)
      returns (r: Result<string, ChatError>)
      modifies this
      ensures var sent := old(messages) + [Message("user", message)];
        match chat(sent, systemPrompt)
        case Answer(text) => messages == sent + [Message("assistant", text)] && r == Ok(text)
        case Raised => messages == sent && r == Err(ChatError)
    {
      AddMessage("user", message);
      var reply := chat(messages, systemPrompt);
      if reply.Raised? {
        return Err(ChatError);
      }
      AddMessage("assistant", reply.text);
      r := Ok(reply.text);
    }

    /** `clear_history` */
    method ClearHistory()
      modifies this
      ensures messages == []
    {
      messages := [];
    }

    /** `get_history`: a new list equal to the history (in the source its entries are shared, not copied). */
    method GetHistory() returns (history: seq<Message>)
      ensures history == messages
    {
      history := messages;
    }
  }
}
