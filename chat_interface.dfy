/**
 * The chat transcript state machine of ChatInterface.tsx: the transcript,
 * the in-flight flag, the badge of the last detected asset, the browser's
 * key-value storage and the calls made to the parent's detection callback.
 * Each handler is one sequential transition; the persist effect, which React
 * runs after every change of `messages`, is called at the end of each
 * transition that changes them.
 */
module ChatInterface {
  import opened Wrappers
  import opened Text
  import Detector

  datatype Role = User | Assistant

  /** One transcript entry; `timestamp` is in milliseconds since the epoch, `cryptoSymbol` the mention it is tagged with. */
  datatype Message = Message(role: Role, content: string, timestamp: Option<int>, cryptoSymbol: Option<string>)

  /** The storage slot the transcript is persisted under. */
  const StorageKey: string := "chatMessages"

  const WelcomeText: string :=
    "Hello! I'm your crypto assistant. Ask me anything about cryptocurrencies like Bitcoin, Ethereum, or blockchain technology."
  const ClearedText: string := "Chat history has been cleared. How can I help you today?"
  const ErrorText: string := "Sorry, I encountered an error. Please try again."

  /**
   * Outcome of the POST to the chat endpoint: the `response` field of an ok
   * reply, a non-ok status, or a thrown error (network failure, unreadable body).
   */
  datatype ChatReply = Replied(response: string) | NotOk | Threw

  /** The badge after a send: the new detection when there is one, else the old badge. */
  function NextBadge(detected: Option<string>, current: Option<string>): (badge: Option<string>)
    ensures badge.Some? <==> detected.Some? || current.Some?
    ensures detected.Some? ==> badge == detected
    ensures detected.None? ==> badge == current
  {
    if detected.Some? then detected else current
  }

  /** What a send passes to `onCryptoDetection`: a non-null detection, when a listener is wired. */
  function Announcement(detected: Option<string>, hasListener: bool): (calls: seq<Option<string>>)
    ensures |calls| <= 1
    ensures |calls| == 1 <==> detected.Some? && hasListener
    ensures forall i :: 0 <= i < |calls| ==> calls[i] == detected
  {
    if detected.Some? && hasListener then [detected] else []
  }

  /** An assistant turn with no mention: the welcome and the after-clear greeting. */
  function Greeting(text: string, now: int): Message {
    Message(Assistant, text, Some(now), None)
  }

  /** The user turn of lines 100-105, tagged with the detection of its own text. */
  function UserTurn(content: string, now: int): Message {
    Message(User, content, Some(now), Detector.Detect(content))
  }

  /** The assistant turn of lines 139-144 on success, of lines 152-156 on failure. */
  function ReplyTurn(reply: ChatReply, detected: Option<string>, now: int): Message {
    match reply
    case Replied(text) => Message(Assistant, text, Some(now), detected)
    case _ => Message(Assistant, ErrorText, Some(now), None)
  }

  /** The two turns an accepted send appends. */
  function Exchange(content: string, reply: ChatReply, sentAt: int, repliedAt: int): seq<Message> {
    [UserTurn(content, sentAt), ReplyTurn(reply, Detector.Detect(content), repliedAt)]
  }

  /** The value stored under `key`, if any. */
  function Lookup(storage: map<string, string>, key: string): Option<string> {
    if key in storage then Some(storage[key]) else None
  }

  /**
   * The transcript a stored value restores to. `decode` stands for
   * `JSON.parse` followed by the timestamp conversion; it yields `None` where
   * those throw. A missing or empty value, or one that does not decode, gives
   * the welcome turn.
   */
  function Restore(saved: Option<string>, decode: string -> Option<seq<Message>>, now: int): seq<Message> {
    if saved.Some? && saved.value != "" && decode(saved.value).Some? then decode(saved.value).value
    else [Greeting(WelcomeText, now)]
  }

  /** Every user turn carries the detection of its own text. */
  ghost predicate UserTurnsTagged(ms: seq<Message>) {
    forall i :: 0 <= i < |ms| && ms[i].role == User ==> ms[i].cryptoSymbol == Detector.Detect(ms[i].content)
  }

  /** Every assistant turn with a mention directly follows a user turn with the same mention. */
  ghost predicate RepliesCopyQuestion(ms: seq<Message>) {
    forall i :: 0 <= i < |ms| && ms[i].role == Assistant && ms[i].cryptoSymbol.Some? ==>
      i > 0 && ms[i - 1].role == User && ms[i - 1].cryptoSymbol == ms[i].cryptoSymbol
  }

  /** The tagging discipline of the transcript. */
  ghost predicate WellTagged(ms: seq<Message>) {
    UserTurnsTagged(ms) && RepliesCopyQuestion(ms)
  }

  /** A greeting on its own is well tagged. */
  lemma GreetingWellTagged(text: string, now: int)
    ensures WellTagged([Greeting(text, now)])
  {
  }

  /** Appending an exchange keeps the transcript well tagged, whatever the reply. */
  lemma ExchangeKeepsTagging(ms: seq<Message>, content: string, reply: ChatReply, sentAt: int, repliedAt: int)
    requires WellTagged(ms)
    ensures WellTagged(ms + Exchange(content, reply, sentAt, repliedAt))
  {
    var ex := Exchange(content, reply, sentAt, repliedAt);
    var all := ms + ex;
    forall i | 0 <= i < |all| && all[i].role == Assistant && all[i].cryptoSymbol.Some?
      ensures i > 0 && all[i - 1].role == User && all[i - 1].cryptoSymbol == all[i].cryptoSymbol
    {
      if i < |ms| {
        assert all[i] == ms[i] && all[i - 1] == ms[i - 1];
      } else {
        assert i == |ms| + 1 && all[i - 1] == ex[0] && all[i] == ex[1];
      }
    }
    forall i | 0 <= i < |all| && all[i].role == User
      ensures all[i].cryptoSymbol == Detector.Detect(all[i].content)
    {
      if i < |ms| {
        assert all[i] == ms[i];
      }
    }
  }

  /** The last turn is the question a reply tagged `detected` answers (any transcript, for an untagged reply). */
  ghost predicate AwaitsReply(ms: seq<Message>, detected: Option<string>) {
    detected.None? || (|ms| > 0 && ms[|ms| - 1].role == User && ms[|ms| - 1].cryptoSymbol == detected)
  }

  /** Appending a reply to the question it answers keeps the transcript well tagged. */
  lemma ReplyKeepsTagging(ms: seq<Message>, reply: ChatReply, detected: Option<string>, now: int)
    requires WellTagged(ms) && AwaitsReply(ms, detected)
    ensures WellTagged(ms + [ReplyTurn(reply, detected, now)])
  {
    var all := ms + [ReplyTurn(reply, detected, now)];
    forall i | 0 <= i < |all| && all[i].role == Assistant && all[i].cryptoSymbol.Some?
      ensures i > 0 && all[i - 1].role == User && all[i - 1].cryptoSymbol == all[i].cryptoSymbol
    {
      if i < |ms| {
        assert all[i] == ms[i] && all[i - 1] == ms[i - 1];
      } else {
        assert all[i - 1] == ms[|ms| - 1];
      }
    }
    forall i | 0 <= i < |all| && all[i].role == User
      ensures all[i].cryptoSymbol == Detector.Detect(all[i].content)
    {
      assert all[i] == ms[i];
    }
  }

  /** The reply's mention is the question's, whatever the reply says: the reply text is not scanned. */
  lemma ReplyMentionIgnoresReplyText(content: string, first: string, second: string, sentAt: int, repliedAt: int)
    ensures Exchange(content, Replied(first), sentAt, repliedAt)[1].cryptoSymbol
         == Exchange(content, Replied(second), sentAt, repliedAt)[1].cryptoSymbol
         == Exchange(content, Replied(first), sentAt, repliedAt)[0].cryptoSymbol
  {
  }

  /** After a successful "Tell me about Solana" the reply is tagged solana, whatever its text. */
  lemma SolanaReplyTagged(reply: string, sentAt: int, repliedAt: int)
    ensures Exchange("Tell me about Solana", Replied(reply), sentAt, repliedAt)[1].cryptoSymbol == Some("solana")
  {
    Detector.DetectSolanaQuestion();
  }

  /** A transcript persisted by the app reloads as itself, given that decoding inverts encoding. */
  lemma RestoreAfterPersist(ms: seq<Message>, encode: seq<Message> -> string,
                            decode: string -> Option<seq<Message>>, now: int)
    requires encode(ms) != "" && decode(encode(ms)) == Some(ms)
    ensures Restore(Lookup(map[StorageKey := encode(ms)], StorageKey), decode, now) == ms
  {
  }

  /**
   * Restoring yields an empty transcript only when the stored value decodes to
   * an empty list; a missing, empty or undecodable value gives the welcome turn.
   */
  lemma RestoreEmptyOnlyFromEmptyList(saved: Option<string>, decode: string -> Option<seq<Message>>, now: int)
    ensures Restore(saved, decode, now) == [] <==> saved.Some? && saved.value != "" && decode(saved.value) == Some([])
    ensures saved.None? || saved.value == "" || decode(saved.value).None? ==>
      Restore(saved, decode, now) == [Greeting(WelcomeText, now)]
  {
  }

  class ChatSession {
    var messages: seq<Message>
    var isLoading: bool
    /** The badge: the last non-null detection, or null after a clear. */
    var currentCrypto: Option<string>
    /** The browser's localStorage. */
    var storage: map<string, string>
    /** The values passed to `onCryptoDetection`, in call order. */
    var announced: seq<Option<string>>
    /** Whether the parent passed `onCryptoDetection`. */
    const hasListener: bool
    /** `JSON.stringify` on transcripts. */
    const encode: seq<Message> -> string

    /** The first render: empty transcript, idle, no badge. */
    constructor (storage: map<string, string>, hasListener: bool, encode: seq<Message> -> string)
      ensures this.storage == storage && this.hasListener == hasListener && this.encode == encode
      ensures messages == [] && !isLoading && currentCrypto == None && announced == []
    {
      this.storage := storage;
      this.hasListener := hasListener;
      this.encode := encode;
      messages := [];
      isLoading := false;
      currentCrypto := None;
      announced := [];
    }

    /** The persist effect: writes the transcript only when it is non-empty. */
    method PersistMessages()
      modifies this`storage
      ensures storage == if messages == [] then old(storage) else old(storage)[StorageKey := encode(messages)]
    {
      if |messages| > 0 {
        storage := storage[StorageKey := encode(messages)];
      }
    }

    /** The mount effect: restore the stored transcript, or greet. */
    method LoadMessages(decode: string -> Option<seq<Message>>, now: int)
      modifies this`messages, this`storage
      ensures messages == Restore(Lookup(old(storage), StorageKey), decode, now)
      ensures storage == if messages == [] then old(storage) else old(storage)[StorageKey := encode(messages)]
    {
      var saved := Lookup(storage, StorageKey);
      if saved.Some? && saved.value != "" {
        var parsed := decode(saved.value);
        if parsed.Some? {
          messages := parsed.value;
        } else {
          messages := [Greeting(WelcomeText, now)];
        }
      } else {
        messages := [Greeting(WelcomeText, now)];
      }
      PersistMessages();
    }

    /**
     * `handleSendMessage` up to the `await`: a blank text changes nothing;
     * otherwise the user turn is appended, the badge and the callback follow a
     * non-null detection, loading starts, and the request body is returned.
     */
    method BeginSend(content: string, now: int) returns (request: Option<seq<Message>>)
      modifies this`messages, this`isLoading, this`currentCrypto, this`storage, this`announced
      ensures IsBlank(content) ==>
        && request == None && messages == old(messages) && isLoading == old(isLoading)
        && currentCrypto == old(currentCrypto) && storage == old(storage) && announced == old(announced)
      ensures !IsBlank(content) ==> messages == old(messages) + [UserTurn(content, now)]
      ensures !IsBlank(content) ==> request == Some(messages) && isLoading
      ensures !IsBlank(content) ==> currentCrypto == NextBadge(Detector.Detect(content), old(currentCrypto))
      ensures !IsBlank(content) ==> announced == old(announced) + Announcement(Detector.Detect(content), hasListener)
      ensures !IsBlank(content) ==> storage == old(storage)[StorageKey := encode(messages)]
    {
      if IsBlank(content) {
        return None;
      }
      var detected := Detector.Detect(content);
      var userMessage := Message(User, content, Some(now), detected);
      messages := messages + [userMessage];
      ShowDetection(detected);
      isLoading := true;
      request := Some(messages);
      PersistMessages();
    }

    /** The badge update and the parent notification of a send (lines 109-115). */
    method ShowDetection(detected: Option<string>)
      modifies this`currentCrypto, this`announced
      ensures currentCrypto == NextBadge(detected, old(currentCrypto))
      ensures announced == old(announced) + Announcement(detected, hasListener)
    {
      if detected.Some? {
        currentCrypto := detected;
        if hasListener {
          announced := announced + [detected];
        }
      }
    }

    /** `handleSendMessage` after the `await`: append the reply or the apology, then stop loading. */
    method FinishSend(detected: Option<string>, reply: ChatReply, now: int)
      modifies this`messages, this`isLoading, this`storage
      ensures messages == old(messages) + [ReplyTurn(reply, detected, now)]
      ensures !isLoading
      ensures storage == old(storage)[StorageKey := encode(messages)]
      ensures WellTagged(old(messages)) && AwaitsReply(old(messages), detected) ==> WellTagged(messages)
    {
      ghost var before := messages;
      match reply {
        case Replied(text) =>
          messages := messages + [Message(Assistant, text, Some(now), detected)];
        case _ =>
          messages := messages + [Message(Assistant, ErrorText, Some(now), None)];
      }
      isLoading := false;
      PersistMessages();
      if WellTagged(before) && AwaitsReply(before, detected) {
        ReplyKeepsTagging(before, reply, detected, now);
      }
    }

    /**
     * The whole of `handleSendMessage`, with the chat endpoint as a function of
     * the request body: a blank text changes nothing; any other appends one
     * exchange, ends idle, and keeps the transcript well tagged.
     */
    method HandleSendMessage(content: string, backend: seq<Message> -> ChatReply, sentAt: int, repliedAt: int)
      modifies this`messages, this`isLoading, this`currentCrypto, this`storage, this`announced
      ensures IsBlank(content) ==>
        && messages == old(messages) && isLoading == old(isLoading) && currentCrypto == old(currentCrypto)
        && storage == old(storage) && announced == old(announced)
      ensures !IsBlank(content) ==>
        messages == old(messages) + Exchange(content, backend(old(messages) + [UserTurn(content, sentAt)]), sentAt, repliedAt)
      ensures !IsBlank(content) ==> !isLoading
      ensures !IsBlank(content) ==> currentCrypto == NextBadge(Detector.Detect(content), old(currentCrypto))
      ensures !IsBlank(content) ==> announced == old(announced) + Announcement(Detector.Detect(content), hasListener)
      ensures !IsBlank(content) ==> storage == old(storage)[StorageKey := encode(messages)]
      ensures WellTagged(old(messages)) ==> WellTagged(messages)
    {
      ghost var before := messages;
      ghost var storedBefore := storage;
      var request := BeginSend(content, sentAt);
      if request.Some? {
        var detected := Detector.Detect(content);
        var userTurn := UserTurn(content, sentAt);
        assert messages == before + [userTurn];
        var reply := backend(request.value);
        assert reply == backend(before + [userTurn]);
        FinishSend(detected, reply, repliedAt);
        assert messages == before + [userTurn] + [ReplyTurn(reply, detected, repliedAt)];
        assert messages == before + Exchange(content, reply, sentAt, repliedAt);
        assert storage == storedBefore[StorageKey := encode(messages)];
        if WellTagged(before) {
          ExchangeKeepsTagging(before, content, reply, sentAt, repliedAt);
        }
      }
    }

    /**
     * `clearChatHistory`: declined, nothing changes; confirmed, the slot is
     * removed, the transcript becomes the after-clear greeting, the badge and
     * the parent are reset, and the persist effect writes the greeting back.
     */
    method ClearChatHistory(confirmed: bool, now: int)
      modifies this`messages, this`currentCrypto, this`storage, this`announced
      ensures !confirmed ==>
        messages == old(messages) && currentCrypto == old(currentCrypto) && storage == old(storage) && announced == old(announced)
      ensures confirmed ==>
        && messages == [Greeting(ClearedText, now)]
        && currentCrypto == None
        && announced == old(announced) + (if hasListener then [None] else [])
        && storage == old(storage)[StorageKey := encode(messages)]
      ensures confirmed ==> WellTagged(messages)
    {
      if confirmed {
        storage := storage - {StorageKey};
        messages := [Greeting(ClearedText, now)];
        currentCrypto := None;
        if hasListener {
          announced := announced + [None];
        }
        PersistMessages();
        assert storage == old(storage)[StorageKey := encode(messages)];
        GreetingWellTagged(ClearedText, now);
      }
    }
  }

  /**
   * A clear confirmed while a reply is pending. Nothing disables the Clear
   * History button, so the reply lands straight after the after-clear
   * greeting, still tagged with a question the transcript no longer holds:
   * only the uninterrupted send keeps the transcript well tagged.
   */
  method ClearWhilePending(session: ChatSession, content: string, text: string,
                           sentAt: int, clearedAt: int, repliedAt: int)
    modifies session
    requires !IsBlank(content) && Detector.Detect(content).Some?
    ensures session.messages ==
      [Greeting(ClearedText, clearedAt), Message(Assistant, text, Some(repliedAt), Detector.Detect(content))]
    ensures !session.isLoading && session.currentCrypto == None
    ensures !WellTagged(session.messages)
  {
    var request := session.BeginSend(content, sentAt);
    session.ClearChatHistory(true, clearedAt);
    session.FinishSend(Detector.Detect(content), Replied(text), repliedAt);
    assert session.messages[1].role == Assistant && session.messages[1].cryptoSymbol.Some?;
    assert session.messages[0].role != User;
  }
}
