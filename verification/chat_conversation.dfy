/** A chat conversation: the document stored in the `chats` collection and the mutable
    object the chat service fills in. */
module ChatConversations {
  import opened Common

  /** The preview of the newest message kept on the conversation. */
  datatype LastMessage = LastMessage(senderId: Option<string>, text: Option<string>, createdAt: Option<string>)

  /** The stored fields of a conversation. The `type` field ("direct" or "group") is called
      `chatType` here because `type` is a Dafny keyword. */
  datatype ChatRecord = ChatRecord(
    id: Option<string>,
    participants: Option<seq<string>>,
    chatType: Option<string>,
    name: Option<string>,
    createdAt: Option<string>,
    updatedAt: Option<string>,
    lastMessage: Option<LastMessage>)

  /** A conversation whose every field is null, as `new ChatConversation()` leaves it. */
  const EmptyChat: ChatRecord := ChatRecord(None, None, None, None, None, None, None)

  /** The conversation after `initDefaults()` at clock reading `now`. */
  function InitDefaultsOf(c: ChatRecord, now: string): (r: ChatRecord)
    ensures !NullOrEmpty(c.createdAt) ==> r.createdAt == c.createdAt
    ensures NullOrEmpty(c.createdAt) ==> r.createdAt == Some(now)
    ensures !NullOrEmpty(c.updatedAt) ==> r.updatedAt == c.updatedAt
    ensures NullOrEmpty(c.updatedAt) ==> r.updatedAt == r.createdAt
    ensures r.(createdAt := c.createdAt, updatedAt := c.updatedAt) == c
  {
    var created := if NullOrEmpty(c.createdAt) then Some(now) else c.createdAt;
    c.(createdAt := created, updatedAt := if NullOrEmpty(c.updatedAt) then created else c.updatedAt)
  }

  /** A new conversation carrying neither timestamp starts with updatedAt equal to createdAt,
      both the clock reading. */
  lemma FreshChatTimestamps(c: ChatRecord, now: string)
    requires c.createdAt.None? && c.updatedAt.None?
    ensures InitDefaultsOf(c, now).createdAt == Some(now)
    ensures InitDefaultsOf(c, now).updatedAt == Some(now)
  {
  }

  /** initDefaults is idempotent when the clock reading is not empty. */
  lemma InitDefaultsIdempotent(c: ChatRecord, now: string, later: string)
    requires now != ""
    ensures InitDefaultsOf(InitDefaultsOf(c, now), later) == InitDefaultsOf(c, now)
  {
  }

  /** The mutable `ChatConversation` object. */
  class ChatConversation {
    var id: Option<string>
    var participants: Option<seq<string>>
    var chatType: Option<string>
    var name: Option<string>
    var createdAt: Option<string>
    var updatedAt: Option<string>
    var lastMessage: Option<LastMessage>

    /** The object's fields as a document. */
    function Value(): ChatRecord
      reads this
    {
      ChatRecord(id, participants, chatType, name, createdAt, updatedAt, lastMessage)
    }

    /** `new ChatConversation()` */
    constructor ()
      ensures Value() == EmptyChat
    {
      id, participants, chatType, name := None, None, None, None;
      createdAt, updatedAt, lastMessage := None, None, None;
    }

    /** `toObject(ChatConversation.class)`: an object holding the fields of a stored document. */
    constructor FromRecord(r: ChatRecord)
      ensures Value() == r
    {
      id, participants, chatType, name := r.id, r.participants, r.chatType, r.name;
      createdAt, updatedAt, lastMessage := r.createdAt, r.updatedAt, r.lastMessage;
    }

    /** `initDefaults()`, with the clock reading passed in: a null or empty createdAt becomes
        now, then a null or empty updatedAt becomes createdAt; nothing else changes. */
    method InitDefaults(now: string)
      modifies this
      ensures Value() == InitDefaultsOf(old(Value()), now)
    {
      if createdAt.None? || createdAt.value == "" {
        createdAt := Some(now);
      }
      if updatedAt.None? || updatedAt.value == "" {
        updatedAt := createdAt;
      }
    }

    method SetId(v: Option<string>)
      modifies this
      ensures Value() == old(Value()).(id := v)
    {
      id := v;
    }

    method SetParticipants(v: Option<seq<string>>)
      modifies this
      ensures Value() == old(Value()).(participants := v)
    {
      participants := v;
    }

    method SetType(v: Option<string>)
      modifies this
      ensures Value() == old(Value()).(chatType := v)
    {
      chatType := v;
    }

    method SetName(v: Option<string>)
      modifies this
      ensures Value() == old(Value()).(name := v)
    {
      name := v;
    }
  }
}
