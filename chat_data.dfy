/**
  The `Chat` collection and its `Messages` subcollections, as the chat screens
  read and write them: a map from document id to chat document, and per chat
  the sequence of message documents.
 */
module ChatData {
  import opened Js

  /** An entry of a chat's `users` array. */
  datatype ChatUser = ChatUser(
    id: Option<string>,
    email: Option<string>,
    imageUrl: Option<string>,
    name: Option<string>,
    username: Option<string>)

  /** The `lastMessageSender` object. */
  datatype Sender = Sender(id: string, name: string, email: Option<string>)

  /**
    The `unreadCount` field: missing, a plain number (a new chat is created with
    `0`), or the per-email object built up by dotted-path updates.
   */
  datatype Unread = NoUnread | UnreadNumber(n: int) | UnreadMap(counts: map<string, int>)

  /** `unreadCount[key] || 0`. */
  function UnreadOf(u: Unread, key: string): (r: int)
    ensures !(u.UnreadMap? && key in u.counts) ==> r == 0
    ensures u.UnreadMap? && key in u.counts ==> r == u.counts[key]
  {
    if u.UnreadMap? && key in u.counts then u.counts[key] else 0
  }

  /** `updateDoc(chat, { ['unreadCount.' + key]: v })`. */
  function SetUnread(u: Unread, key: string, v: int): (r: Unread)
    ensures r.UnreadMap? && UnreadOf(r, key) == v
    ensures forall k :: k != key ==> UnreadOf(r, k) == UnreadOf(u, k)
  {
    match u
    case UnreadMap(m) => UnreadMap(m[key := v])
    case _ => UnreadMap(map[key := v])
  }

  /** A `Chat/{id}` document. */
  datatype ChatDoc = ChatDoc(
    id: string,
    users: seq<ChatUser>,
    petId: string,
    petName: string,
    petImage: Option<string>,
    createdAt: string,
    lastMessage: Option<string>,
    lastMessageTime: Option<string>,
    lastMessageSender: Option<Sender>,
    updatedAt: Option<string>,
    unreadCount: Unread,
    lastSeen: Option<map<string, string>>,
    participants: Option<seq<string>>)

  /**
    A stored `createdAt` value: missing, a server timestamp (milliseconds since
    the epoch), a number, or a string.
   */
  datatype RawTime = NoTime | ServerTimestamp(millis: int) | NumberTime(n: int) | StringTime(s: string)

  /** The `user` object of a stored message; `uid` is its `_id` field. */
  datatype RawUser = RawUser(
    uid: Option<string>,
    email: Option<string>,
    id: Option<string>,
    name: Option<string>,
    avatar: Option<string>,
    imageUrl: Option<string>,
    userId: Option<string>)

  /** The data of a `Messages/{id}` document. */
  datatype RawMessage = RawMessage(
    text: Option<string>,
    createdAt: RawTime,
    user: Option<RawUser>,
    readBy: seq<Option<string>>)

  datatype MessageDoc = MessageDoc(id: string, data: RawMessage)

  /** The chat part of the document store. */
  class ChatDb {
    var chats: map<string, ChatDoc>
    var messages: map<string, seq<MessageDoc>>

    constructor (chats: map<string, ChatDoc>, messages: map<string, seq<MessageDoc>>)
      ensures this.chats == chats && this.messages == messages
    {
      this.chats := chats;
      this.messages := messages;
    }

    /** The messages stored under chat `id`, oldest write first. */
    function MessagesOf(id: string): seq<MessageDoc>
      reads this
    {
      if id in messages then messages[id] else []
    }
  }
}
