/** A chat message: the document stored in a conversation's `messages` subcollection and the
    mutable object the chat service fills in. */
module ChatMessages {
  import opened Common

  /** The stored fields of a message. */
  datatype MessageRecord = MessageRecord(
    id: Option<string>,
    chatId: Option<string>,
    senderId: Option<string>,
    text: Option<string>,
    createdAt: Option<string>,
    senderDisplayName: Option<string>,
    senderProfileImageUrl: Option<string>)

  /** The message after `initDefaults()` at clock reading `now`. */
  function InitDefaultsOf(m: MessageRecord, now: string): (r: MessageRecord)
    ensures !NullOrEmpty(m.createdAt) ==> r.createdAt == m.createdAt
    ensures NullOrEmpty(m.createdAt) ==> r.createdAt == Some(now)
    ensures r.(createdAt := m.createdAt) == m
  {
    m.(createdAt := if NullOrEmpty(m.createdAt) then Some(now) else m.createdAt)
  }

  /** The mutable `ChatMessage` object. */
  class ChatMessage {
    var id: Option<string>
    var chatId: Option<string>
    var senderId: Option<string>
    var text: Option<string>
    var createdAt: Option<string>
    var senderDisplayName: Option<string>
    var senderProfileImageUrl: Option<string>

    /** The object's fields as a document. */
    function Value(): MessageRecord
      reads this
    {
      MessageRecord(id, chatId, senderId, text, createdAt, senderDisplayName, senderProfileImageUrl)
    }

    /** An object holding the given fields: the request body, or `toObject(ChatMessage.class)`. */
    constructor FromRecord(r: MessageRecord)
      ensures Value() == r
    {
      id, chatId, senderId, text := r.id, r.chatId, r.senderId, r.text;
      createdAt, senderDisplayName, senderProfileImageUrl := r.createdAt, r.senderDisplayName, r.senderProfileImageUrl;
    }

    /** `initDefaults()`, with the clock reading passed in: a null or empty createdAt becomes
        now; nothing else changes. */
    method InitDefaults(now: string)
      modifies this
      ensures Value() == InitDefaultsOf(old(Value()), now)
    {
      if createdAt.None? || createdAt.value == "" {
        createdAt := Some(now);
      }
    }

    method SetId(v: Option<string>)
      modifies this
      ensures Value() == old(Value()).(id := v)
    {
      id := v;
    }

    method SetChatId(v: Option<string>)
      modifies this
      ensures Value() == old(Value()).(chatId := v)
    {
      chatId := v;
    }

    method SetSenderId(v: Option<string>)
      modifies this
      ensures Value() == old(Value()).(senderId := v)
    {
      senderId := v;
    }

    method SetText(v: Option<string>)
      modifies this
      ensures Value() == old(Value()).(text := v)
    {
      text := v;
    }

    method SetCreatedAt(v: Option<string>)
      modifies this
      ensures Value() == old(Value()).(createdAt := v)
    {
      createdAt := v;
    }

    method SetSenderDisplayName(v: Option<string>)
      modifies this
      ensures Value() == old(Value()).(senderDisplayName := v)
    {
      senderDisplayName := v;
    }

    method SetSenderProfileImageUrl(v: Option<string>)
      modifies this
      ensures Value() == old(Value()).(senderProfileImageUrl := v)
    {
      senderProfileImageUrl := v;
    }
  }
}
