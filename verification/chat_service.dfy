/** The chat service: conversations between two users ("direct") or named groups, the
    messages posted to them, and the removal of a conversation with all its messages. */
module ChatServices {
  import opened Common
  import opened Text
  import UserProfiles
  import opened ChatConversations
  import opened ChatMessages
  import opened Firestore
  import opened UserProfileServices

  /** The position of the first c in s, or |s| when there is none. */
  function IndexOf(s: string, c: char): (r: nat)
    ensures r <= |s|
    ensures r < |s| ==> s[r] == c
    ensures forall i :: 0 <= i < r ==> s[i] != c
  {
    if s == [] then 0 else if s[0] == c then 0 else 1 + IndexOf(s[1..], c)
  }

  /** The separator sits right after a first part that does not contain it. */
  lemma {:induction false} IndexOfJoin(x: string, y: string)
    requires '_' !in x
    ensures IndexOf(x + "_" + y, '_') == |x|
  {
    if x != [] {
      assert (x + "_" + y)[1..] == x[1..] + "_" + y;
      IndexOfJoin(x[1..], y);
    }
  }

  /** Joining two parts with "_" is injective as long as the first part has no "_". */
  lemma JoinInjective(x: string, y: string, u: string, v: string)
    requires '_' !in x && '_' !in u
    requires x + "_" + y == u + "_" + v
    ensures x == u && y == v
  {
    var s := x + "_" + y;
    IndexOfJoin(x, y);
    IndexOfJoin(u, v);
    assert x == s[..|x|] == u;
    assert y == s[|x| + 1..] == v;
  }

  /** The id of the direct conversation between a and b: the two uids sorted by `compareTo`
      and joined with "_". */
  function DirectChatId(a: string, b: string): (id: string)
    ensures (id == a + "_" + b && JavaLe(a, b)) || (id == b + "_" + a && JavaLe(b, a))
  {
    JavaLeTotal(a, b);
    if JavaLe(a, b) then a + "_" + b else b + "_" + a
  }

  /** Both participants of a direct conversation reach the same document, whichever of them
      opens it. */
  lemma DirectChatIdSymmetric(a: string, b: string)
    ensures DirectChatId(a, b) == DirectChatId(b, a)
  {
    JavaLeTotal(a, b);
    if JavaLe(a, b) && JavaLe(b, a) {
      JavaLeAntisymmetric(a, b);
    }
  }

  /** For uids without "_", different pairs get different conversation ids. */
  lemma DirectChatIdInjective(a: string, b: string, c: string, d: string)
    requires '_' !in a && '_' !in b && '_' !in c && '_' !in d
    requires DirectChatId(a, b) == DirectChatId(c, d)
    ensures (a == c && b == d) || (a == d && b == c)
  {
    var id := DirectChatId(a, b);
    if id == a + "_" + b {
      if id == c + "_" + d {
        JoinInjective(a, b, c, d);
      } else {
        JoinInjective(a, b, d, c);
      }
    } else {
      if id == c + "_" + d {
        JoinInjective(b, a, c, d);
      } else {
        JoinInjective(b, a, d, c);
      }
    }
  }

  /** With "_" inside a uid, two different pairs share one conversation id. */
  lemma DirectChatIdCollision()
    ensures DirectChatId("a_b", "c") == DirectChatId("a", "b_c") == "a_b_c"
  {
    assert Utf16("a_b") == [97, 95, 98] && Utf16("c") == [99];
    assert Utf16("a") == [97] && Utf16("b_c") == [98, 95, 99];
  }

  /** Uids are sorted by UTF-16 code unit, as `Collections.sort` does: a uid holding U+10000 comes
      before one holding U+FFFF, although its code point is the larger. */
  lemma DirectChatIdAboveBmp()
    ensures DirectChatId("\U{FFFF}", "\U{10000}") == "\U{10000}_\U{FFFF}"
  {
    JavaLeDiffersAboveBmp();
    if JavaLe("\U{FFFF}", "\U{10000}") {
      JavaLeAntisymmetric("\U{FFFF}", "\U{10000}");
    }
  }

  /** The requests `createChat` accepts: at least one participant, a type of "direct" or
      "group", exactly two participants in a direct conversation and a name that is not blank
      for a group. */
  predicate ValidChatRequest(participants: Option<seq<string>>, name: Option<string>, chatType: Option<string>)
  {
    participants.Some? && |participants.value| > 0
    && (chatType == Some("direct") || chatType == Some("group"))
    && (chatType == Some("direct") ==> |participants.value| == 2)
    && (chatType == Some("group") ==> name.Some? && !IsBlank(name.value))
  }

  /** The conversation `createChat` stores: the participants in the order given, the type and
      the name, both timestamps at the clock reading, no last message and no id field. */
  function NewChat(participants: seq<string>, name: Option<string>, chatType: string, now: string): (c: ChatRecord)
    ensures c.participants == Some(participants) && c.chatType == Some(chatType) && c.name == name
    ensures c.createdAt == Some(now) && c.updatedAt == Some(now)
    ensures c.id.None? && c.lastMessage.None?
  {
    ChatConversations.InitDefaultsOf(EmptyChat.(participants := Some(participants), chatType := Some(chatType), name := name), now)
  }

  /** The requests `addMessage` accepts: a chat id, a sender and a text, none of them empty. */
  predicate ValidMessageRequest(chatId: Option<string>, m: MessageRecord)
  {
    !NullOrEmpty(chatId) && !NullOrEmpty(m.senderId) && !NullOrEmpty(m.text)
  }

  /** The message as `addMessage` stores it: createdAt defaulted to the clock reading, and the
      sender's display name and picture copied from the sender's profile, or "Unknown User" and
      no picture when the sender has none. */
  function Sent(m: MessageRecord, now: string, profiles: map<string, UserProfiles.ProfileRecord>): (s: MessageRecord)
    requires m.senderId.Some?
    ensures s.id == m.id && s.chatId == m.chatId && s.senderId == m.senderId && s.text == m.text
    ensures s.createdAt == (if NullOrEmpty(m.createdAt) then Some(now) else m.createdAt)
    ensures m.senderId.value in profiles ==>
      s.senderDisplayName == profiles[m.senderId.value].displayName
      && s.senderProfileImageUrl == profiles[m.senderId.value].profileImageUrl
    ensures m.senderId.value !in profiles ==> s.senderDisplayName == Some(UnknownUser) && s.senderProfileImageUrl.None?
  {
    var d := ChatMessages.InitDefaultsOf(m, now);
    var uid := m.senderId.value;
    if uid in profiles then
      d.(senderDisplayName := profiles[uid].displayName, senderProfileImageUrl := profiles[uid].profileImageUrl)
    else
      d.(senderDisplayName := Some(UnknownUser), senderProfileImageUrl := None)
  }

  /** The preview a conversation keeps of a message. */
  function Preview(m: MessageRecord): LastMessage
  {
    LastMessage(m.senderId, m.text, m.createdAt)
  }

  class ChatService {
    const db: Database
    const userProfiles: UserProfileService

    constructor (userProfiles: UserProfileService)
      ensures db == userProfiles.db && this.userProfiles == userProfiles
    {
      db := userProfiles.db;
      this.userProfiles := userProfiles;
    }

    /** The chat service and the profile service share one database. */
    predicate Valid()
    {
      userProfiles.db == db
    }

    /** `createChat(participants, name, type)`: the request is checked first. A direct
        conversation lives under the id of its sorted pair: when that document exists it is
        returned and nothing is written; otherwise it is created without a name. A group is
        created under a generated id. The stored conversation carries no id field; the returned
        one carries its document id. */
    method CreateChat(participants: Option<seq<string>>, name: Option<string>, chatType: Option<string>, now: string, newId: string)
      returns (r: Result<ChatRecord>)
      modifies db`chats
      ensures r.Err? <==> !ValidChatRequest(participants, name, chatType)
      ensures r.Err? ==> r.error == IllegalArgument && db.chats == old(db.chats)
      ensures r.Ok? && chatType == Some("direct") ==>
        var key := DirectChatId(participants.value[0], participants.value[1]);
        key in db.chats && r.value == db.chats[key].(id := Some(key))
        && if key in old(db.chats) then db.chats == old(db.chats)
           else db.chats == old(db.chats)[key := NewChat(participants.value, None, "direct", now)]
      ensures r.Ok? && chatType == Some("group") ==>
        db.chats == old(db.chats)[newId := NewChat(participants.value, name, "group", now)]
        && r.value == db.chats[newId].(id := Some(newId))
    {
      if participants.None? || |participants.value| == 0 {
        return Err(IllegalArgument);
      }
      if chatType != Some("direct") && chatType != Some("group") {
        return Err(IllegalArgument);
      }
      var ps := participants.value;
      var chatName := name;
      if chatType == Some("direct") {
        if |ps| != 2 {
          return Err(IllegalArgument);
        }
        var directId := DirectChatId(ps[0], ps[1]);
        if directId in db.chats {
          var existing := new ChatConversation.FromRecord(db.chats[directId]);
          existing.SetId(Some(directId));
          return Ok(existing.Value());
        }
        chatName := None;
      } else if name.None? || IsBlank(name.value) {
        return Err(IllegalArgument);
      }
      var chat := new ChatConversation();
      chat.SetParticipants(participants);
      chat.SetType(chatType);
      chat.SetName(chatName);
      chat.InitDefaults(now);
      var docId := if chatType == Some("direct") then DirectChatId(ps[0], ps[1]) else newId;
      db.chats := db.chats[docId := chat.Value()];
      chat.SetId(Some(docId));
      r := Ok(chat.Value());
    }

    /** `addMessage(chatId, message)`: the request is checked before anything changes. The
        message then gets its timestamp and its sender's name and picture, is stored in the
        conversation's messages under a generated id, and the returned object carries that id
        and the chat id. Last the conversation's preview becomes this message and its updatedAt
        the clock reading; when the conversation does not exist that update fails, after the
        message has been stored. */
    method AddMessage(chatId: Option<string>, message: ChatMessage, now: string, msgId: string, updateNow: string)
      returns (r: Result<MessageRecord>)
      requires Valid()
      modifies message, db`messages, db`chats
      ensures r == Err(IllegalArgument) <==> !ValidMessageRequest(chatId, old(message.Value()))
      ensures !ValidMessageRequest(chatId, old(message.Value())) ==>
        message.Value() == old(message.Value()) && db.messages == old(db.messages) && db.chats == old(db.chats)
      ensures ValidMessageRequest(chatId, old(message.Value())) ==>
        var sent := Sent(old(message.Value()), now, db.profiles);
        db.messages == old(db.messages)[(chatId.value, msgId) := sent]
        && message.Value() == sent.(id := Some(msgId), chatId := chatId)
      ensures ValidMessageRequest(chatId, old(message.Value())) && chatId.value in old(db.chats) ==>
        r == Ok(message.Value())
        && db.chats == old(db.chats)[chatId.value := old(db.chats)[chatId.value].(
             lastMessage := Some(Preview(db.messages[(chatId.value, msgId)])), updatedAt := Some(updateNow))]
      ensures ValidMessageRequest(chatId, old(message.Value())) && chatId.value !in old(db.chats) ==>
        r == Err(RuntimeFailure) && db.chats == old(db.chats)
    {
      if chatId.None? || chatId.value == "" {
        return Err(IllegalArgument);
      }
      if message.senderId.None? || message.senderId.value == "" || message.text.None? || message.text.value == "" {
        return Err(IllegalArgument);
      }
      message.InitDefaults(now);
      var sender := userProfiles.GetUserProfileByFirebaseUid(message.senderId.value, now);
      if sender.Some? {
        message.SetSenderDisplayName(sender.value.displayName);
        message.SetSenderProfileImageUrl(sender.value.profileImageUrl);
      } else {
        message.SetSenderDisplayName(Some(UnknownUser));
        message.SetSenderProfileImageUrl(None);
      }
      db.messages := db.messages[(chatId.value, msgId) := message.Value()];
      message.SetId(Some(msgId));
      message.SetChatId(chatId);
      if chatId.value !in db.chats {
        // updating a missing document fails; the message stays stored
        return Err(RuntimeFailure);
      }
      var preview := LastMessage(message.senderId, message.text, message.createdAt);
      db.chats := db.chats[chatId.value := db.chats[chatId.value].(lastMessage := Some(preview), updatedAt := Some(updateNow))];
      r := Ok(message.Value());
    }

    /** `deleteChat(chatId)`: every message of the conversation is deleted, then the
        conversation itself; a conversation that does not exist is no error. */
    method DeleteChat(chatId: string)
      modifies db`messages, db`chats
      ensures forall k :: k in db.messages <==> k in old(db.messages) && k.0 != chatId
      ensures forall k :: k in db.messages ==> db.messages[k] == old(db.messages)[k]
      ensures db.chats == old(db.chats) - {chatId}
    {
      var pending := set k | k in db.messages && k.0 == chatId;
      while pending != {}
        invariant pending <= db.messages.Keys
        invariant forall k :: k in pending ==> k.0 == chatId
        invariant forall k :: k in db.messages <==> k in old(db.messages) && (k.0 != chatId || k in pending)
        invariant forall k :: k in db.messages ==> db.messages[k] == old(db.messages)[k]
        invariant db.chats == old(db.chats)
        decreases |pending|
      {
        var k :| k in pending;
        db.messages := db.messages - {k};
        pending := pending - {k};
      }
      db.chats := db.chats - {chatId};
    }
  }
}
